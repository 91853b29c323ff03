/**
 * How a run comes to be stopped for good: a poll that was in flight across a cancellation
 * stores a plain CANCELLED before the confirmed one.
 */
module LateConfirmation {
  import opened Prelude
  import opened Plans
  import opened Lifecycle
  import opened LifecycleInvariant
  import opened Runtime
  import opened Driver
  import opened Quarantine

  /** The run has one attempt, of the training step, and may still change. */
  predicate Single(r: ProductRun, a: AttemptId, status: AttemptStatus) {
    && |r.attempts| == 1 && Numbered(r) && a == AttemptId(r.runId, 1)
    && r.attempts[0].stepId == "training-execution" && r.attempts[0].status == status
    && !r.attempts[0].cleanupConfirmed && !r.Terminal()
  }

  /** Where the three threads stand. */
  predicate Standing(d: Driver, p: Pc, q: Pc, s: Pc) {
    PcOf(d, 0) == p && PcOf(d, 1) == q && PcOf(d, 2) == s
  }

  /** The attempt runs under its own session, which the driver remembers. */
  predicate UnderWay(d: Driver, a: AttemptId) {
    Single(d.run, a, Running) && a in d.memory && d.memory[a] == a && d.launches == [a]
  }

  function Seen(d: Driver): Attempt
    requires |d.run.attempts| == 1
  {
    d.run.attempts[0]
  }

  /** The reports of the running submission, of the poll and of the cancellation. */
  function Reports(a: AttemptId, status: AttemptStatus, cleanup: Option<bool>): Pc {
    Reporting(a, status, Details(Some([a]), cleanup, None), false)
  }

  lemma OneMore(d: Driver, before: seq<DriverEvent>, u: Driver, e: DriverEvent)
    requires Follows(TrainPlan, d, before, u)
    ensures Follows(TrainPlan, d, before + [e], Next(TrainPlan, u, e))
  {
    assert (before + [e])[..|before|] == before;
  }

  lemma SingleFound(r: ProductRun, a: AttemptId, status: AttemptStatus)
    requires Single(r, a, status)
    ensures FindAttempt(r.attempts, a) == Some(r.attempts[0]) && r.attempts[0].id == a
  {
    assert NumberedAt(r, 0);
  }

  /** What an observation of the active attempt leaves. */
  lemma SingleObserved(d: Driver, a: AttemptId, was: AttemptStatus, status: AttemptStatus, details: Details)
    requires Single(d.run, a, was) && IsActive(was) && details.cleanup.None?
    ensures var v := Commit(TrainPlan, d, ObserveAttempt(a, status, details, None)).run;
            && Single(v, a, status) && v.observed == ForcedStatus(status).GetOr(d.run.observed)
            && v.desired == d.run.desired && v.stepStatuses == d.run.stepStatuses["training-execution" := StepStatusOf(status)]
  {
    SingleFound(d.run, a, was);
    ObserveLast(d.run, status, details, None, d.clock);
    var v := Persist(d.run, ObservedLatest(d.run, status, details, d.clock), d.clock);
    assert NumberedAt(d.run, 0) && NumberedAt(v, 0);
  }

  lemma SceneMade(d: Driver, a: AttemptId) returns (v: Driver)
    requires Booted(d) && a == AttemptId(d.run.runId, 1)
    ensures Follows(TrainPlan, d, [NextActionRead(0)] + [Start(0)], v)
    ensures Single(v.run, a, Pending) && v.run.desired.Active? && v.run.stepStatuses == map["training-execution" := StepRunning]
    ensures v.launches == [] && Standing(v, Executing(Seen(v)), Idle, Idle)
  {
    hide Next;
    OneMore(d, [], d, NextActionRead(0));
    StartIsRead(d);
    var u := Goto(d, 0, Starting);
    assert [] + [NextActionRead(0)] == [NextActionRead(0)];
    OneMore(d, [NextActionRead(0)], u, Start(0));
    StartAppends(d, u);
    v := Next(TrainPlan, u, Start(0));
    assert NumberedAt(v.run, 0);
  }

  lemma SceneSubmitted(d: Driver, before: seq<DriverEvent>, u: Driver, a: AttemptId) returns (v: Driver)
    requires Follows(TrainPlan, d, before, u) && u.launches == []
    requires Single(u.run, a, Pending) && Standing(u, Executing(Seen(u)), Idle, Idle)
    ensures Follows(TrainPlan, d, before + [Submit(0)], v) && v == Goto(u.(launches := [a]), 0, Submitting(a))
  {
    SingleFound(u.run, a, Pending);
    OneMore(d, before, u, Submit(0));
    v := Goto(u.(launches := [a]), 0, Submitting(a));
  }

  lemma SceneReturned(d: Driver, before: seq<DriverEvent>, u: Driver, a: AttemptId) returns (v: Driver)
    requires Follows(TrainPlan, d, before, u) && Standing(u, Submitting(a), Idle, Idle)
    ensures Follows(TrainPlan, d, before + [SubmitReturned(0, SRunning, None)], v)
    ensures v == Goto(Remember(u, a, a), 0, Reports(a, Running, None))
  {
    OneMore(d, before, u, SubmitReturned(0, SRunning, None));
    v := Goto(Remember(u, a, a), 0, Reports(a, Running, None));
  }

  lemma SceneRunning(d: Driver, before: seq<DriverEvent>, u: Driver, a: AttemptId) returns (v: Driver)
    requires Follows(TrainPlan, d, before, u) && Standing(u, Reports(a, Running, None), Idle, Idle)
    requires Single(u.run, a, Pending) && u.launches == [a] && a in u.memory && u.memory[a] == a
    requires u.run.desired.Active? && u.run.stepStatuses == map["training-execution" := StepRunning]
    ensures Follows(TrainPlan, d, before + [Report(0)], v)
    ensures Standing(v, Idle, Idle, Idle) && UnderWay(v, a)
    ensures v.run.desired.Active? && v.run.stepStatuses == map["training-execution" := StepRunning]
  {
    hide Decide;
    var details := Details(Some([a]), None, None);
    SingleObserved(u, a, Pending, Running, details);
    OneMore(d, before, u, Report(0));
    v := Goto(Commit(TrainPlan, u, ObserveAttempt(a, Running, details, None)), 0, Idle);
  }

  lemma SceneWaits(d: Driver, before: seq<DriverEvent>, u: Driver, a: AttemptId) returns (v: Driver)
    requires Follows(TrainPlan, d, before, u) && Standing(u, Idle, Idle, Idle) && UnderWay(u, a)
    requires u.run.desired.Active? && u.run.stepStatuses == map["training-execution" := StepRunning]
    ensures Follows(TrainPlan, d, before + [NextActionRead(1)], v)
    ensures Standing(v, Idle, Waiting(a), Idle) && UnderWay(v, a)
  {
    SingleFound(u.run, a, Running);
    assert NextAction(TrainPlan, u.run) == Wait(Some(a));
    OneMore(d, before, u, NextActionRead(1));
    v := Goto(u, 1, Waiting(a));
  }

  lemma ScenePolls(d: Driver, before: seq<DriverEvent>, u: Driver, a: AttemptId) returns (v: Driver)
    requires Follows(TrainPlan, d, before, u) && Standing(u, Idle, Waiting(a), Idle) && UnderWay(u, a)
    ensures Follows(TrainPlan, d, before + [ReadForPoll(1)], v)
    ensures UnderWay(v, a) && Standing(v, Idle, Polling(Seen(v), a), Idle)
  {
    SingleFound(u.run, a, Running);
    OneMore(d, before, u, ReadForPoll(1));
    v := Goto(Remember(u, a, a), 1, Polling(Seen(u), a));
  }

  lemma SingleRequested(u: Driver, a: AttemptId)
    requires Single(u.run, a, Running)
    ensures Commit(TrainPlan, u, RequestCancel).run
            == Persist(u.run, u.run.(desired := WantCancelled, observed := CancelRequested), u.clock)
    ensures Single(Commit(TrainPlan, u, RequestCancel).run, a, Running)
  {
    hide NextAction;
    assert NumberedAt(u.run, 0) && NumberedAt(Commit(TrainPlan, u, RequestCancel).run, 0);
  }

  lemma SceneRequested(d: Driver, before: seq<DriverEvent>, u: Driver, a: AttemptId) returns (v: Driver)
    requires Follows(TrainPlan, d, before, u) && UnderWay(u, a) && Standing(u, Idle, Polling(Seen(u), a), Idle)
    ensures Follows(TrainPlan, d, before + [UserCancel], v)
    ensures UnderWay(v, a) && Standing(v, Idle, Polling(Seen(v), a), Idle) && v.run.desired.WantCancelled?
  {
    hide Decide, NextAction;
    SingleRequested(u, a);
    OneMore(d, before, u, UserCancel);
    v := Commit(TrainPlan, u, RequestCancel);
  }

  lemma SceneCancels(d: Driver, before: seq<DriverEvent>, u: Driver, a: AttemptId) returns (v: Driver)
    requires Follows(TrainPlan, d, before, u) && UnderWay(u, a) && Standing(u, Idle, Polling(Seen(u), a), Idle)
    requires u.run.desired.WantCancelled?
    ensures Follows(TrainPlan, d, before + [NextActionRead(2)], v)
    ensures UnderWay(v, a) && Standing(v, Idle, Polling(Seen(v), a), CancelDecided(a)) && v.run.desired.WantCancelled?
  {
    SingleFound(u.run, a, Running);
    assert NextAction(TrainPlan, u.run) == RequestCancellation(Seen(u).stepId, a);
    OneMore(d, before, u, NextActionRead(2));
    v := Goto(u, 2, CancelDecided(a));
  }

  lemma SceneCalls(d: Driver, before: seq<DriverEvent>, u: Driver, a: AttemptId) returns (v: Driver)
    requires Follows(TrainPlan, d, before, u) && UnderWay(u, a)
    requires Standing(u, Idle, Polling(Seen(u), a), CancelDecided(a)) && u.run.desired.WantCancelled?
    ensures Follows(TrainPlan, d, before + [ReadForCancel(2)], v)
    ensures UnderWay(v, a) && Standing(v, Idle, Polling(Seen(v), a), CancelCalling(Seen(v), a)) && v.run.desired.WantCancelled?
  {
    SingleFound(u.run, a, Running);
    OneMore(d, before, u, ReadForCancel(2));
    v := Goto(Remember(u, a, a), 2, CancelCalling(Seen(u), a));
  }

  lemma SceneConfirmed(d: Driver, before: seq<DriverEvent>, u: Driver, a: AttemptId) returns (v: Driver)
    requires Follows(TrainPlan, d, before, u) && UnderWay(u, a)
    requires Standing(u, Idle, Polling(Seen(u), a), CancelCalling(Seen(u), a)) && u.run.desired.WantCancelled?
    ensures Follows(TrainPlan, d, before + [CancelReturned(2, a, SCancelled, None)], v)
    ensures UnderWay(v, a) && Standing(v, Idle, Polling(Seen(v), a), Reports(a, Cancelled, Some(true)))
    ensures v.run.desired.WantCancelled?
  {
    hide Decide;
    SingleFound(u.run, a, Running);
    OneMore(d, before, u, CancelReturned(2, a, SCancelled, None));
    v := Goto(u, 2, Reports(a, Cancelled, Some(true)));
  }

  lemma SceneSeen(d: Driver, before: seq<DriverEvent>, u: Driver, a: AttemptId) returns (v: Driver)
    requires Follows(TrainPlan, d, before, u) && UnderWay(u, a)
    requires Standing(u, Idle, Polling(Seen(u), a), Reports(a, Cancelled, Some(true))) && u.run.desired.WantCancelled?
    ensures Follows(TrainPlan, d, before + [PollReturned(1, a, SCancelled, None)], v)
    ensures UnderWay(v, a) && Standing(v, Idle, Reports(a, Cancelled, None), Reports(a, Cancelled, Some(true)))
    ensures v.run.desired.WantCancelled?
  {
    hide Decide;
    SingleFound(u.run, a, Running);
    OneMore(d, before, u, PollReturned(1, a, SCancelled, None));
    v := Goto(u, 1, Reports(a, Cancelled, None));
  }

  lemma SceneOvertaken(d: Driver, before: seq<DriverEvent>, u: Driver, a: AttemptId) returns (v: Driver)
    requires Follows(TrainPlan, d, before, u) && UnderWay(u, a) && u.run.desired.WantCancelled?
    requires Standing(u, Idle, Reports(a, Cancelled, None), Reports(a, Cancelled, Some(true)))
    ensures Follows(TrainPlan, d, before + [Report(1)], v)
    ensures Stopped(v.run, a) && PcOf(v, 2) == Reports(a, Cancelled, Some(true)) && v.launches == [a]
  {
    hide Next, Decide;
    var details := Details(Some([a]), None, None);
    ReportIs(TrainPlan, u, 1);
    SingleObserved(u, a, Running, Cancelled, details);
    OneMore(d, before, u, Report(1));
    v := Goto(Commit(TrainPlan, u, ObserveAttempt(a, Cancelled, details, None)), 1, Idle);
    SingleFound(v.run, a, Cancelled);
  }

  /** The attempt is launched and runs. */
  const Launching := [NextActionRead(0)] + [Start(0)] + [Submit(0)] + [SubmitReturned(0, SRunning, None)] + [Report(0)]

  /** Thread 1 polls it; then the user cancels and thread 2 asks the engine. */
  const Asking := Launching + [NextActionRead(1)] + [ReadForPoll(1)] + [UserCancel] + [NextActionRead(2)] + [ReadForCancel(2)]

  /** The engine confirms to thread 2, then answers thread 1, whose report is stored first. */
  function Overtaking(a: AttemptId): seq<DriverEvent> {
    Asking + [CancelReturned(2, a, SCancelled, None)] + [PollReturned(1, a, SCancelled, None)] + [Report(1)]
  }

  lemma SceneLaunched(d: Driver, a: AttemptId) returns (v: Driver)
    requires Booted(d) && a == AttemptId(d.run.runId, 1)
    ensures Follows(TrainPlan, d, Launching, v) && Standing(v, Idle, Idle, Idle) && UnderWay(v, a)
    ensures v.run.desired.Active? && v.run.stepStatuses == map["training-execution" := StepRunning]
  {
    v := SceneMade(d, a);
    v := SceneSubmitted(d, [NextActionRead(0)] + [Start(0)], v, a);
    v := SceneReturned(d, [NextActionRead(0)] + [Start(0)] + [Submit(0)], v, a);
    v := SceneRunning(d, [NextActionRead(0)] + [Start(0)] + [Submit(0)] + [SubmitReturned(0, SRunning, None)], v, a);
  }

  lemma SceneAsked(d: Driver, u: Driver, a: AttemptId) returns (v: Driver)
    requires Follows(TrainPlan, d, Launching, u) && Standing(u, Idle, Idle, Idle) && UnderWay(u, a)
    requires u.run.desired.Active? && u.run.stepStatuses == map["training-execution" := StepRunning]
    ensures Follows(TrainPlan, d, Asking, v) && UnderWay(v, a) && v.run.desired.WantCancelled?
    ensures Standing(v, Idle, Polling(Seen(v), a), CancelCalling(Seen(v), a))
  {
    v := SceneWaits(d, Launching, u, a);
    v := ScenePolls(d, Launching + [NextActionRead(1)], v, a);
    v := SceneRequested(d, Launching + [NextActionRead(1)] + [ReadForPoll(1)], v, a);
    v := SceneCancels(d, Launching + [NextActionRead(1)] + [ReadForPoll(1)] + [UserCancel], v, a);
    v := SceneCalls(d, Launching + [NextActionRead(1)] + [ReadForPoll(1)] + [UserCancel] + [NextActionRead(2)], v, a);
  }

  /**
   * From boot: thread 1 polls a running attempt while thread 2 cancels it. The engine has
   * confirmed the cleanup to thread 2, yet thread 1's plain CANCELLED is stored first and
   * thread 2's confirmation is refused: the run is stopped for good.
   */
  lemma ConfirmationCanComeTooLate(d: Driver)
    requires Booted(d)
    ensures var a := AttemptId(d.run.runId, 1);
            var v := Exec(TrainPlan, d, Overtaking(a));
            && v.launches == [a] && Stopped(v.run, a) && PcOf(v, 2) == Reports(a, Cancelled, Some(true))
            && Stopped(Next(TrainPlan, v, Report(2)).run, a)
  {
    var a := AttemptId(d.run.runId, 1);
    var v := SceneLaunched(d, a);
    v := SceneAsked(d, v, a);
    v := SceneConfirmed(d, Asking, v, a);
    v := SceneSeen(d, Asking + [CancelReturned(2, a, SCancelled, None)], v, a);
    v := SceneOvertaken(d, Asking + [CancelReturned(2, a, SCancelled, None)] + [PollReturned(1, a, SCancelled, None)], v, a);
    TrainPlanValid();
    ReachableDriver(TrainPlan, d, Overtaking(a));
    StoppedNext(TrainPlan, v, a, Report(2));
  }

  /**
   * Exactly when a confirmed cancellation leaves its attempt confirmed: the attempt still
   * is the active last one of a nonterminal run, or was confirmed already.
   */
  lemma ConfirmationStoredIff(plan: ExecutionPlan, d: Driver, t: nat, a: AttemptId)
    requires DriverInv(plan, d) && PcOf(d, t) == Reports(a, Cancelled, Some(true))
    ensures Confirmed(Next(plan, d, Report(t)).run, a) <==>
            Confirmed(d.run, a) || (IsLatestActive(d.run, a) && !d.run.Terminal())
  {
    hide Next, NextAction;
    var details := Details(Some([a]), Some(true), None);
    assert PcOk(d, PcOf(d, t));
    ReportIs(plan, d, t);
    ObserveWritesIff(d.run, a, Cancelled, details, None, d.clock);
    if d.run.attempts != [] { LatestNumbered(d.run); }
  }
}
