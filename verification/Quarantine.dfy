/**
 * Quarantine: once an unobservable attempt is marked, when can the run still move past
 * it without its cleanup confirmed? Exactly when a call that was already in flight can
 * still deliver an outcome for it.
 */
module Quarantine {
  import opened Prelude
  import opened Plans
  import opened Lifecycle
  import opened LifecycleInvariant
  import opened LifecycleTheorems
  import opened Runtime
  import opened Driver

  function Last(r: ProductRun): Attempt
    requires r.attempts != []
  {
    r.attempts[|r.attempts| - 1]
  }

  predicate IsLast(r: ProductRun, a: AttemptId) {
    r.attempts != [] && Last(r).id == a
  }

  /** The state a quarantine leaves: the marked attempt is last and active, and the run
      is on its way to cancellation. */
  predicate Held(r: ProductRun, a: AttemptId) {
    && IsLast(r, a) && IsActive(Last(r).status)
    && r.desired.WantCancelled? && (r.observed.CancelRequested? || r.observed.PlanCancelling?)
  }

  /** The attempt was recorded as cancelled with its cleanup confirmed. */
  predicate Confirmed(r: ProductRun, a: AttemptId) {
    && HasAttempt(r, a)
    && r.attempts[a.number - 1].status.Cancelled? && r.attempts[a.number - 1].cleanupConfirmed
  }

  /** A later attempt exists although the marked one was never confirmed as cleaned up. */
  predicate Broken(r: ProductRun, a: AttemptId) {
    HasAttempt(r, a) && a.number < |r.attempts| && !Confirmed(r, a)
  }

  /** Cancelled without confirmation: the run waits and nothing moves it. */
  predicate Stopped(r: ProductRun, a: AttemptId) {
    && IsLast(r, a) && Last(r).status.Cancelled? && !Last(r).cleanupConfirmed
    && r.desired.WantCancelled? && r.observed.CancelRequested?
  }

  /** Statuses after which the run can be resumed or retried past the attempt. */
  predicate Reopens(s: AttemptStatus) {
    s.Succeeded? || s.Failed? || s.Lost? || s.Blocked?
  }

  /** A thread that will deliver an outcome the engine still chooses. */
  predicate Delivers(pc: Pc, a: AttemptId) {
    match pc
    case Executing(x) => x.id == a && !KindOf(x.stepId).OtherStep?
    case Submitting(id) => id == a
    case Polling(x, _) => x.id == a
    case Reporting(id, status, _, _) => id == a && Reopens(status)
    case _ => false
  }

  /** A thread whose snapshot still names the session. */
  predicate Carries(pc: Pc, a: AttemptId) {
    match pc
    case Quarantining(x, _) => x.id == a && x.refs != []
    case QuarantineCancelling(x, _) => x.id == a && x.refs != []
    case Reporting(id, status, details, _) => id == a && status.Cancelling? && details.refs.GetOr([]) != []
    case _ => false
  }

  function LastRefs(r: ProductRun): seq<AttemptId> {
    if r.attempts == [] then [] else Last(r).refs
  }

  ghost predicate Obtainable(d: Driver, a: AttemptId) {
    a in d.memory || LastRefs(d.run) != [] || exists t: nat :: Carries(PcOf(d, t), a)
  }

  ghost predicate SomeDelivers(d: Driver, a: AttemptId) {
    exists t: nat :: Delivers(PcOf(d, t), a)
  }

  ghost predicate SomeWaits(d: Driver, a: AttemptId) {
    exists t: nat :: PcOf(d, t) == Waiting(a)
  }

  /** An in-flight call can still deliver an outcome for the attempt. */
  ghost predicate Threat(d: Driver, a: AttemptId) {
    SomeDelivers(d, a) || (SomeWaits(d, a) && Obtainable(d, a))
  }

  ghost predicate Safe(d: Driver, a: AttemptId) {
    Confirmed(d.run, a) || Stopped(d.run, a) || (Held(d.run, a) && !Threat(d, a))
  }

  // ----- No threat: the quarantine holds -----

  lemma LastHas(plan: ExecutionPlan, r: ProductRun, a: AttemptId)
    requires Inv(plan, r) && IsLast(r, a)
    ensures HasAttempt(r, a) && a.number == |r.attempts| && r.attempts[a.number - 1] == Last(r)
  {
    LatestNumbered(r);
  }

  lemma SafeIsNotBroken(plan: ExecutionPlan, d: Driver, a: AttemptId)
    requires DriverInv(plan, d) && Safe(d, a)
    ensures !Broken(d.run, a)
  {
    if IsLast(d.run, a) { LastHas(plan, d.run, a); }
  }

  /** A terminal attempt keeps its record whatever commits next. */
  lemma ConfirmedCommit(plan: ExecutionPlan, d: Driver, op: Op, a: AttemptId)
    requires DriverInv(plan, d) && Confirmed(d.run, a)
    ensures Confirmed(Commit(plan, d, op).run, a)
  {
    CommitGrows(plan, d, op);
    if Decide(plan, d.run, op, d.clock).Write? {
      WriteExtends(plan, d.run, op, d.clock);
      assert d.run.attempts[a.number - 1].status.Terminal();
    }
  }

  lemma StoppedCommit(plan: ExecutionPlan, d: Driver, op: Op, a: AttemptId)
    requires DriverInv(plan, d) && Stopped(d.run, a)
    ensures Stopped(Commit(plan, d, op).run, a) && Commit(plan, d, op).run.attempts == d.run.attempts
  {
    if op.ObserveAttempt? {
      ObserveWritesIff(d.run, op.attemptId, op.status, op.details, op.expected, d.clock);
    }
  }

  /** What no observation of the marked attempt changes. */
  lemma HeldCommit(plan: ExecutionPlan, d: Driver, op: Op, a: AttemptId)
    requires DriverInv(plan, d) && Held(d.run, a)
    requires op.ObserveAttempt? ==> op.attemptId != a
    ensures Held(Commit(plan, d, op).run, a) && Commit(plan, d, op).run.attempts == d.run.attempts
  {
    if op.ObserveAttempt? {
      ObserveWritesIff(d.run, op.attemptId, op.status, op.details, op.expected, d.clock);
    }
  }

  /** What an observation of the marked attempt leaves. */
  lemma HeldObserve(plan: ExecutionPlan, d: Driver, a: AttemptId, status: AttemptStatus, details: Details)
    requires DriverInv(plan, d) && Held(d.run, a)
    ensures var r := Commit(plan, d, ObserveAttempt(a, status, details, None)).run;
            && IsLast(r, a) && Last(r) == Observed(Last(d.run), status, details, d.clock)
            && r.desired.WantCancelled? && |r.attempts| == |d.run.attempts|
            && r.observed == ForcedStatus(status).GetOr(d.run.observed)
  {
    ObserveWritesIff(d.run, a, status, details, None, d.clock);
  }

  lemma NoNewThreat(d: Driver, v: Driver, t: nat, a: AttemptId)
    requires !Threat(d, a)
    requires forall u: nat {:trigger PcOf(v, u)} | u != t :: PcOf(v, u) == PcOf(d, u)
    requires !Delivers(PcOf(v, t), a) && PcOf(v, t) != Waiting(a)
    requires (a in v.memory || LastRefs(v.run) != [] || Carries(PcOf(v, t), a)) ==> Obtainable(d, a)
    ensures !Threat(v, a)
  {
    forall u: nat ensures !Delivers(PcOf(v, u), a) {
      if u != t { assert !Delivers(PcOf(d, u), a); }
    }
    if SomeWaits(v, a) {
      var u: nat :| PcOf(v, u) == Waiting(a);
      assert PcOf(d, u) == Waiting(a);
      assert !Obtainable(d, a);
      forall x: nat ensures !Carries(PcOf(v, x), a) {
        if x != t { assert !Carries(PcOf(d, x), a); }
      }
    }
  }

  /** A thread that is not a threat moves, without a commit, to a place that is none. */
  lemma QuietMove(plan: ExecutionPlan, d: Driver, t: nat, pc: Pc, a: AttemptId)
    requires Safe(d, a) && !Delivers(pc, a) && pc != Waiting(a)
    requires Carries(pc, a) ==> Carries(PcOf(d, t), a) || a in d.memory
    ensures Safe(Goto(d, t, pc), a)
  {
    if Held(d.run, a) && !Threat(d, a) {
      NoNewThreat(d, Goto(d, t, pc), t, a);
    }
  }

  lemma CommitSafe(plan: ExecutionPlan, d: Driver, t: nat, op: Op, pc: Pc, a: AttemptId)
    requires DriverInv(plan, d) && Safe(d, a)
    requires op.ObserveAttempt? ==> op.attemptId != a
    requires !Delivers(pc, a) && pc != Waiting(a) && (Carries(pc, a) ==> Carries(PcOf(d, t), a))
    ensures Safe(Goto(Commit(plan, d, op), t, pc), a)
  {
    hide Decide, DriverInv;
    if Confirmed(d.run, a) {
      ConfirmedCommit(plan, d, op, a);
    } else if Stopped(d.run, a) {
      StoppedCommit(plan, d, op, a);
    } else {
      HeldCommit(plan, d, op, a);
      NoNewThreat(d, Goto(Commit(plan, d, op), t, pc), t, a);
    }
  }

  lemma ReportSafe(plan: ExecutionPlan, d: Driver, t: nat, a: AttemptId)
    requires DriverInv(plan, d) && Safe(d, a)
    ensures Safe(Next(plan, d, Report(t)), a)
  {
    hide Decide, Commit;
    var pc := PcOf(d, t);
    if pc.Reporting? {
      assert PcOk(d, pc);
      var op := ObserveAttempt(pc.target, pc.status, pc.details, None);
      if Confirmed(d.run, a) {
        ConfirmedCommit(plan, d, op, a);
      } else if Stopped(d.run, a) {
        StoppedCommit(plan, d, op, a);
      } else if pc.target != a {
        CommitSafe(plan, d, t, op, Idle, a);
      } else {
        HeldReportSafe(plan, d, t, a);
      }
    }
  }

  lemma ReportIs(plan: ExecutionPlan, d: Driver, t: nat)
    requires PcOf(d, t).Reporting?
    ensures var pc := PcOf(d, t);
            Next(plan, d, Report(t)) == Goto(Commit(plan, d, ObserveAttempt(pc.target, pc.status, pc.details, None)), t, Idle)
  {
    hide Decide, NextAction;
  }

  lemma HeldReportSafe(plan: ExecutionPlan, d: Driver, t: nat, a: AttemptId)
    requires DriverInv(plan, d) && Held(d.run, a) && !Threat(d, a)
    requires PcOf(d, t).Reporting? && PcOf(d, t).target == a
    ensures Safe(Next(plan, d, Report(t)), a)
  {
    hide Next, Decide;
    var pc := PcOf(d, t);
    ReportIs(plan, d, t);
    HeldObserve(plan, d, a, pc.status, pc.details);
    if pc.status.Cancelled? {
      CancelledReportSafe(plan, d, t, a);
    } else {
      QuietReportSafe(plan, d, t, a);
    }
  }

  /** A reported cancellation confirms the attempt or stops the run. */
  lemma CancelledReportSafe(plan: ExecutionPlan, d: Driver, t: nat, a: AttemptId)
    requires DriverInv(plan, d) && Held(d.run, a)
    requires PcOf(d, t).Reporting? && PcOf(d, t).target == a && PcOf(d, t).status.Cancelled?
    ensures var v := Commit(plan, d, ObserveAttempt(a, PcOf(d, t).status, PcOf(d, t).details, None));
            Safe(Goto(v, t, Idle), a)
  {
    hide Decide, PcOk;
    var pc := PcOf(d, t);
    var v := Commit(plan, d, ObserveAttempt(a, pc.status, pc.details, None));
    HeldObserve(plan, d, a, pc.status, pc.details);
    CommitGrows(plan, d, ObserveAttempt(a, pc.status, pc.details, None));
    LastHas(plan, v.run, a);
  }

  /** Any other report of a thread that is no threat leaves the attempt held. */
  lemma QuietReportSafe(plan: ExecutionPlan, d: Driver, t: nat, a: AttemptId)
    requires DriverInv(plan, d) && Held(d.run, a) && !Threat(d, a)
    requires PcOf(d, t).Reporting? && PcOf(d, t).target == a && !PcOf(d, t).status.Cancelled?
    ensures var v := Commit(plan, d, ObserveAttempt(a, PcOf(d, t).status, PcOf(d, t).details, None));
            Safe(Goto(v, t, Idle), a)
  {
    hide Decide, Inv;
    var pc := PcOf(d, t);
    var v := Goto(Commit(plan, d, ObserveAttempt(a, pc.status, pc.details, None)), t, Idle);
    assert PcOk(d, pc) && !Delivers(pc, a);
    HeldObserve(plan, d, a, pc.status, pc.details);
    if LastRefs(v.run) != [] && LastRefs(d.run) == [] {
      assert pc.details.refs.GetOr([]) != [];
      assert a in d.memory || Carries(pc, a);
    }
    NoNewThreat(d, v, t, a);
  }

  /** Without a session the read snapshot carries no reference; with one, the session
      was obtainable already. */
  lemma ReadQuiet(d: Driver, t: nat, x: Attempt, poll: bool, a: AttemptId)
    requires Held(d.run, a) && !Threat(d, a) && FindAttempt(d.run.attempts, x.id) == Some(x)
    requires x.id == a ==> x == Last(d.run)
    requires poll ==> PcOf(d, t) == Waiting(x.id)
    ensures !Threat(ReadSession(d, t, x.id, poll), a)
  {
    var v := ReadSession(d, t, x.id, poll);
    if x.id == a && SessionOf(d, x).Some? {
      assert Obtainable(d, a);
      if poll { assert SomeWaits(d, a); }
    }
    NoNewThreat(d, v, t, a);
  }

  lemma ReadSafe(plan: ExecutionPlan, d: Driver, t: nat, a: AttemptId, poll: bool)
    requires DriverInv(plan, d) && Safe(d, a)
    requires PcOf(d, t).Waiting? || PcOf(d, t).CancelDecided?
    requires poll ==> PcOf(d, t).Waiting?
    ensures Safe(ReadSession(d, t, PcOf(d, t).target, poll), a)
  {
    var target := PcOf(d, t).target;
    if Held(d.run, a) && !Threat(d, a) {
      if FindAttempt(d.run.attempts, target).Some? {
        FoundNumbered(d.run, target);
        LastHas(plan, d.run, a);
        ReadQuiet(d, t, FindAttempt(d.run.attempts, target).value, poll, a);
      } else {
        QuietMove(plan, d, t, Idle, a);
      }
    }
  }

  lemma StartSafe(plan: ExecutionPlan, d: Driver, t: nat, op: Op, a: AttemptId)
    requires DriverInv(plan, d) && Safe(d, a) && (op.StartNextAttempt? || op.ResumeAttempt?)
    ensures Safe(ExecuteNew(plan, d, t, op), a)
  {
    if Confirmed(d.run, a) {
      ConfirmedCommit(plan, d, op, a);
    } else {
      CommitSafe(plan, d, t, op, Idle, a);
    }
  }

  lemma MovedQuiet(cancelling: bool, pc: Pc, e: DriverEvent, a: AttemptId)
    requires MovesThread(e) && !Delivers(pc, a)
    ensures var moved := MovedPc(cancelling, pc, e);
            && !Delivers(moved, a) && (moved == Waiting(a) ==> moved == pc)
            && (Carries(moved, a) ==> Carries(pc, a) || (pc.CancelCalling? && pc.seen.id == a))
  {
  }

  /** Events that only move one thread on never make a new threat. */
  lemma MoveSafe(plan: ExecutionPlan, d: Driver, e: DriverEvent, a: AttemptId)
    requires DriverInv(plan, d) && Safe(d, a) && MovesThread(e)
    ensures Safe(Next(plan, d, e), a)
  {
    hide MovedPc, Inv;
    var pc := MovedPc(d.run.desired.WantCancelled?, PcOf(d, e.t), e);
    if pc != PcOf(d, e.t) && Held(d.run, a) && !Threat(d, a) {
      assert PcOk(d, PcOf(d, e.t)) && !Delivers(PcOf(d, e.t), a);
      MovedQuiet(d.run.desired.WantCancelled?, PcOf(d, e.t), e, a);
      QuietMove(plan, d, e.t, pc, a);
    }
  }

  lemma SubmitSafe(plan: ExecutionPlan, d: Driver, t: nat, e: DriverEvent, a: AttemptId)
    requires DriverInv(plan, d) && Safe(d, a) && (e.Submit? || e.SubmitReturned?) && e.t == t
    ensures Safe(Next(plan, d, e), a)
  {
    if Held(d.run, a) && !Threat(d, a) {
      assert PcOk(d, PcOf(d, t)) && !Delivers(PcOf(d, t), a);
      if Next(plan, d, e) != d {
        NoNewThreat(d, Next(plan, d, e), t, a);
      }
    }
  }

  lemma DecidedSafe(plan: ExecutionPlan, d: Driver, t: nat, a: AttemptId)
    requires DriverInv(plan, d) && Safe(d, a)
    ensures Safe(Next(plan, d, NextActionRead(t)), a)
  {
    if PcOf(d, t).Idle? && Held(d.run, a) && !Threat(d, a) {
      assert NextAction(plan, d.run).RequestCancellation?;
      QuietMove(plan, d, t, DecidedPc(NextAction(plan, d.run)), a);
    }
  }

  lemma CrashSafe(plan: ExecutionPlan, d: Driver, a: AttemptId)
    requires Safe(d, a)
    ensures Safe(Next(plan, d, Crash), a)
  {
    var v := Next(plan, d, Crash);
    assert forall t: nat {:trigger PcOf(v, t)} :: PcOf(v, t) == Idle;
  }

  lemma UserCancelSafe(plan: ExecutionPlan, d: Driver, a: AttemptId)
    requires DriverInv(plan, d) && Safe(d, a)
    ensures Safe(Next(plan, d, UserCancel), a)
  {
    hide DriverInv;
    if Confirmed(d.run, a) {
      ConfirmedCommit(plan, d, RequestCancel, a);
    } else if Held(d.run, a) && !Threat(d, a) {
      var v := Next(plan, d, UserCancel);
      HeldCommit(plan, d, RequestCancel, a);
      forall u: nat {:trigger PcOf(v, u)} ensures PcOf(v, u) == PcOf(d, u) {}
    }
  }

  /** Events that commit an operation other than a report. */
  lemma CommitEventSafe(plan: ExecutionPlan, d: Driver, e: DriverEvent, a: AttemptId)
    requires DriverInv(plan, d) && Safe(d, a) && (e.Finalize? || e.Start? || e.QuarantineCancel? || e.UserResume?)
    ensures Safe(Next(plan, d, e), a)
  {
    hide DriverInv, Safe, Apply, ExecuteNew;
    var pc := PcOf(d, e.t);
    if e.Finalize? && pc.Finalizing? {
      CommitSafe(plan, d, e.t, ApplyTerminalAction, Idle, a);
    } else if e.Start? && pc.Starting? {
      StartSafe(plan, d, e.t, StartNextAttempt, a);
    } else if e.QuarantineCancel? && pc.QuarantineCancelling? {
      CommitSafe(plan, d, e.t, RequestCancel, QuarantineReport(pc.seen, pc.detail), a);
    } else if e.UserResume? && pc.Idle? {
      StartSafe(plan, d, e.t, ResumeAttempt(e.stepId), a);
    }
  }

  lemma SafeKeeps(plan: ExecutionPlan, d: Driver, e: DriverEvent, a: AttemptId)
    requires DriverInv(plan, d) && Safe(d, a)
    ensures Safe(Next(plan, d, e), a)
  {
    hide DriverInv;
    match e {
      case NextActionRead(t) => DecidedSafe(plan, d, t, a);
      case Finalize(t) => CommitEventSafe(plan, d, e, a);
      case Start(t) => CommitEventSafe(plan, d, e, a);
      case QuarantineCancel(t) => CommitEventSafe(plan, d, e, a);
      case UserResume(t, s) => CommitEventSafe(plan, d, e, a);
      case Submit(t) => SubmitSafe(plan, d, t, e, a);
      case SubmitReturned(t, _, _) => SubmitSafe(plan, d, t, e, a);
      case Report(t) => ReportSafe(plan, d, t, a);
      case ReadForPoll(t) => if PcOf(d, t).Waiting? { ReadSafe(plan, d, t, a, true); }
      case ReadForCancel(t) => if PcOf(d, t).CancelDecided? { ReadSafe(plan, d, t, a, false); }
      case Raised(t) => QuietMove(plan, d, t, Idle, a);
      case UserCancel => UserCancelSafe(plan, d, a);
      case Crash => CrashSafe(plan, d, a);
      case _ => MoveSafe(plan, d, e, a);
    }
  }

  lemma {:induction false} SafeForever(plan: ExecutionPlan, d: Driver, a: AttemptId, events: seq<DriverEvent>)
    requires DriverInv(plan, d) && Safe(d, a)
    ensures DriverInv(plan, Exec(plan, d, events)) && Safe(Exec(plan, d, events), a)
  {
    if events != [] {
      var before := events[..|events| - 1];
      SafeForever(plan, d, a, before);
      NextKeeps(plan, Exec(plan, d, before), events[|events| - 1]);
      SafeKeeps(plan, Exec(plan, d, before), events[|events| - 1], a);
    }
  }

  // ----- A threat: some continuation breaks the quarantine -----

  /** v is d some events later. */
  predicate Follows(plan: ExecutionPlan, d: Driver, events: seq<DriverEvent>, v: Driver) {
    Exec(plan, d, events) == v
  }

  lemma Then(plan: ExecutionPlan, d: Driver, events: seq<DriverEvent>, v: Driver, e: DriverEvent) returns (more: seq<DriverEvent>)
    requires DriverInv(plan, v) && Follows(plan, d, events, v)
    ensures DriverInv(plan, Next(plan, v, e)) && Follows(plan, d, more, Next(plan, v, e))
  {
    more := events + [e];
    assert more[..|more| - 1] == events;
    NextKeeps(plan, v, e);
  }

  predicate CanResume(r: ProductRun, a: AttemptId) {
    Resumable(r.observed) && IsLast(r, a) && Reopens(Last(r).status)
  }

  lemma ResumeBreaks(plan: ExecutionPlan, d: Driver, t: nat, a: AttemptId)
    requires DriverInv(plan, d) && PcOf(d, t).Idle? && CanResume(d.run, a)
    ensures Broken(Next(plan, d, UserResume(t, Last(d.run).stepId)).run, a)
  {
    hide Decide, ObservedFits;
    LastHas(plan, d.run, a);
    ResumeAppends(plan, d, Last(d.run).stepId);
  }

  lemma ResumeAppends(plan: ExecutionPlan, d: Driver, s: string)
    requires Inv(plan, d.run) && Resumable(d.run.observed) && FindStep(plan.steps, s).Some?
    ensures Commit(plan, d, ResumeAttempt(s)).run == Persist(d.run, Appended(d.run, Active, s, d.clock), d.clock)
  {
    hide NextAction;
    var rewound := d.run.(desired := Active, observed := PlanRunning);
    forall i: nat | i < |rewound.attempts| ensures NumberedAt(rewound, i) { assert NumberedAt(d.run, i); }
    AppendShape(rewound, s, d.clock);
  }

  /** An outcome that reopens the run lets a resume pass the marked attempt. */
  lemma ReopenedBreaks(plan: ExecutionPlan, d: Driver, before: seq<DriverEvent>, v: Driver, t: nat, a: AttemptId)
    returns (events: seq<DriverEvent>)
    requires DriverInv(plan, v) && Follows(plan, d, before, v) && Held(v.run, a)
    requires PcOf(v, t).Reporting? && Delivers(PcOf(v, t), a)
    ensures Broken(Exec(plan, d, events).run, a)
  {
    hide DriverInv;
    var pc := PcOf(v, t);
    HeldObserve(plan, v, a, pc.status, pc.details);
    var w := Next(plan, v, Report(t));
    events := Then(plan, d, before, v, Report(t));
    if !Resumable(w.run.observed) {
      events, w := FinalisedReopens(plan, d, events, w, t, a);
    }
    ResumeBreaks(plan, w, t, a);
    events := Then(plan, d, events, w, UserResume(t, Last(w.run).stepId));
  }

  lemma FinalisedReopens(plan: ExecutionPlan, d: Driver, before: seq<DriverEvent>, v: Driver, t: nat, a: AttemptId)
    returns (events: seq<DriverEvent>, w: Driver)
    requires DriverInv(plan, v) && Follows(plan, d, before, v) && PcOf(v, t).Idle?
    requires IsLast(v.run, a) && Reopens(Last(v.run).status) && v.run.desired.WantCancelled? && !v.run.Terminal()
    ensures DriverInv(plan, w) && Follows(plan, d, events, w) && PcOf(w, t).Idle? && CanResume(w.run, a)
  {
    hide DriverInv, Apply, NextAction;
    CancelFinalises(plan, v.run, v.clock);
    var u := Next(plan, v, NextActionRead(t));
    events := Then(plan, d, before, v, NextActionRead(t));
    w := Next(plan, u, Finalize(t));
    events := Then(plan, d, events, u, Finalize(t));
  }

  lemma CancelFinalises(plan: ExecutionPlan, r: ProductRun, now: nat)
    requires r.attempts != [] && Reopens(Last(r).status) && r.desired.WantCancelled? && !r.Terminal()
    ensures NextAction(plan, r) == FinalizeCancelled
    ensures Apply(plan, r, Event(ApplyTerminalAction, now, now)) == Persist(r, r.(observed := PlanCancelled), now)
  {
  }

  /** The event that takes a delivering thread one step nearer to its report. */
  function TowardsReport(pc: Pc, t: nat): DriverEvent {
    match pc
    case Executing(x) => if KindOf(x.stepId).PreflightStep? then Evaluate(t, false) else Submit(t)
    case Polling(_, s) => PollReturned(t, s, SFailed, None)
    case _ => SubmitReturned(t, SFailed, None)
  }

  lemma DelivererMoves(plan: ExecutionPlan, v: Driver, t: nat, a: AttemptId)
    requires Delivers(PcOf(v, t), a) && !PcOf(v, t).Reporting?
    ensures var w := Next(plan, v, TowardsReport(PcOf(v, t), t));
            && w.run == v.run && Delivers(PcOf(w, t), a)
            && (PcOf(w, t).Reporting? || PcOf(w, t).Submitting?)
            && (PcOf(v, t).Submitting? ==> PcOf(w, t).Reporting?)
  {
    hide NextAction, Decide;
  }

  /** Every delivering thread can be driven to a report that reopens the run. */
  lemma DelivererReports(plan: ExecutionPlan, d: Driver, before: seq<DriverEvent>, v: Driver, t: nat, a: AttemptId)
    returns (events: seq<DriverEvent>, w: Driver)
    requires DriverInv(plan, v) && Follows(plan, d, before, v) && Held(v.run, a) && Delivers(PcOf(v, t), a)
    ensures DriverInv(plan, w) && Follows(plan, d, events, w) && Held(w.run, a)
    ensures PcOf(w, t).Reporting? && Delivers(PcOf(w, t), a)
    decreases if PcOf(v, t).Reporting? then 0 else if PcOf(v, t).Submitting? then 1 else 2
  {
    if PcOf(v, t).Reporting? {
      events, w := before, v;
    } else {
      DelivererMoves(plan, v, t, a);
      var e := TowardsReport(PcOf(v, t), t);
      events := Then(plan, d, before, v, e);
      events, w := DelivererReports(plan, d, events, Next(plan, v, e), t, a);
    }
  }

  /** A snapshot on its way into a quarantine report ends in that report. */
  lemma CarrierMoves(plan: ExecutionPlan, d: Driver, t: nat, a: AttemptId) returns (e: DriverEvent)
    requires DriverInv(plan, d) && Held(d.run, a) && Carries(PcOf(d, t), a) && !PcOf(d, t).Reporting?
    ensures var w := Next(plan, d, e);
            && Held(w.run, a) && Carries(PcOf(w, t), a) && PcOf(w, t).Reporting?
            && forall u: nat {:trigger PcOf(w, u)} | u != t :: PcOf(w, u) == PcOf(d, u)
  {
    hide DriverInv, Decide;
    e := if PcOf(d, t).Quarantining? then QuarantineCheck(t) else QuarantineCancel(t);
    HeldCommit(plan, d, RequestCancel, a);
  }

  lemma CarrierReports(plan: ExecutionPlan, d: Driver, t: nat, a: AttemptId)
    requires DriverInv(plan, d) && Held(d.run, a) && Carries(PcOf(d, t), a) && PcOf(d, t).Reporting?
    ensures var w := Next(plan, d, Report(t));
            && Held(w.run, a) && LastRefs(w.run) != []
            && forall u: nat {:trigger PcOf(w, u)} | u != t :: PcOf(w, u) == PcOf(d, u)
  {
    hide Decide;
    HeldObserve(plan, d, a, PcOf(d, t).status, PcOf(d, t).details);
  }

  /** A carried snapshot can be written back, so that the record names the session again. */
  lemma CarrierWrites(plan: ExecutionPlan, d: Driver, t: nat, a: AttemptId)
    returns (events: seq<DriverEvent>, w: Driver)
    requires DriverInv(plan, d) && Held(d.run, a) && Carries(PcOf(d, t), a)
    ensures DriverInv(plan, w) && Follows(plan, d, events, w) && Held(w.run, a) && LastRefs(w.run) != []
    ensures forall u: nat {:trigger PcOf(w, u)} | u != t :: PcOf(w, u) == PcOf(d, u)
  {
    events, w := [], d;
    if !PcOf(w, t).Reporting? {
      var e := CarrierMoves(plan, d, t, a);
      events := Then(plan, d, events, w, e);
      w := Next(plan, d, e);
    }
    CarrierReports(plan, w, t, a);
    events := Then(plan, d, events, w, Report(t));
    w := Next(plan, w, Report(t));
  }

  /** A waiting thread whose session is named becomes a poll of that session. */
  lemma WaiterPolls(plan: ExecutionPlan, d: Driver, before: seq<DriverEvent>, v: Driver, t: nat, a: AttemptId)
    returns (events: seq<DriverEvent>, w: Driver)
    requires DriverInv(plan, v) && Follows(plan, d, before, v) && Held(v.run, a)
    requires PcOf(v, t) == Waiting(a) && (a in v.memory || LastRefs(v.run) != [])
    ensures DriverInv(plan, w) && Follows(plan, d, events, w) && Held(w.run, a) && Delivers(PcOf(w, t), a)
  {
    hide Decide, Exec;
    WaiterReads(plan, v, t, a);
    events := Then(plan, d, before, v, ReadForPoll(t));
    w := Next(plan, v, ReadForPoll(t));
  }

  lemma WaiterReads(plan: ExecutionPlan, v: Driver, t: nat, a: AttemptId)
    requires DriverInv(plan, v) && Held(v.run, a)
    requires PcOf(v, t) == Waiting(a) && (a in v.memory || LastRefs(v.run) != [])
    ensures var w := ReadSession(v, t, a, true);
            Next(plan, v, ReadForPoll(t)) == w && w.run == v.run && Delivers(PcOf(w, t), a)
  {
    hide Next, PcOk;
    PollIs(plan, v, t, a);
    LastHas(plan, v.run, a);
    FindByNumber(v.run, a.number - 1);
  }

  lemma PollIs(plan: ExecutionPlan, d: Driver, t: nat, a: AttemptId)
    requires PcOf(d, t) == Waiting(a)
    ensures Next(plan, d, ReadForPoll(t)) == ReadSession(d, t, a, true)
  {
    hide ReadSession, Decide;
  }

  lemma ThreatBreaks(plan: ExecutionPlan, d: Driver, a: AttemptId) returns (events: seq<DriverEvent>)
    requires DriverInv(plan, d) && Held(d.run, a) && Threat(d, a)
    ensures Broken(Exec(plan, d, events).run, a)
  {
    var v, t: nat := d, 0;
    events := [];
    if SomeDelivers(d, a) {
      t :| Delivers(PcOf(d, t), a);
    } else {
      t :| PcOf(d, t) == Waiting(a);
      if !(a in d.memory || LastRefs(d.run) != []) {
        var u: nat :| Carries(PcOf(d, u), a);
        events, v := CarrierWrites(plan, d, u, a);
      }
      events, v := WaiterPolls(plan, d, events, v, t, a);
    }
    events, v := DelivererReports(plan, d, events, v, t, a);
    events := ReopenedBreaks(plan, d, events, v, t, a);
  }

  // ----- The theorem -----

  predicate BrokenAfter(plan: ExecutionPlan, d: Driver, events: seq<DriverEvent>, a: AttemptId) {
    Broken(Exec(plan, d, events).run, a)
  }

  ghost predicate CanBreak(plan: ExecutionPlan, d: Driver, a: AttemptId) {
    exists events :: BrokenAfter(plan, d, events, a)
  }

  /**
   * Quarantine is exact: from a marked attempt, a later attempt can appear without the
   * marked one confirmed as cleaned up if and only if a call already in flight can
   * still deliver an outcome for it.
   */
  lemma QuarantineHoldsIff(plan: ExecutionPlan, d: Driver, a: AttemptId)
    requires DriverInv(plan, d) && Held(d.run, a)
    ensures CanBreak(plan, d, a) <==> Threat(d, a)
  {
    if Threat(d, a) {
      var events := ThreatBreaks(plan, d, a);
      assert BrokenAfter(plan, d, events, a);
    } else {
      forall events ensures !BrokenAfter(plan, d, events, a) {
        SafeForever(plan, d, a, events);
        SafeIsNotBroken(plan, Exec(plan, d, events), a);
      }
    }
  }

  /** A quarantine report that reaches the store leaves its attempt held. */
  lemma QuarantineMarks(plan: ExecutionPlan, d: Driver, t: nat)
    requires DriverInv(plan, d) && PcOf(d, t).Reporting? && PcOf(d, t).quarantine
    requires !d.run.Terminal() && IsLatestActive(d.run, PcOf(d, t).target)
    ensures Held(Next(plan, d, Report(t)).run, PcOf(d, t).target)
    ensures Last(Next(plan, d, Report(t)).run).status.Cancelling?
  {
    hide Next, NextAction;
    var pc := PcOf(d, t);
    assert PcOk(d, pc);
    ReportIs(plan, d, t);
    ObserveWritesIff(d.run, pc.target, pc.status, pc.details, None, d.clock);
  }

  /**
   * With one call at a time, as the service lock grants, a quarantined attempt blocks
   * every later one until it is recorded as cancelled with cleanup confirmed.
   */
  lemma SerialQuarantineHolds(plan: ExecutionPlan, d: Driver, t: nat, events: seq<DriverEvent>)
    requires DriverInv(plan, d) && PcOf(d, t).Reporting? && PcOf(d, t).quarantine
    requires !d.run.Terminal() && IsLatestActive(d.run, PcOf(d, t).target)
    requires forall u: nat {:trigger PcOf(d, u)} | u != t :: PcOf(d, u).Idle?
    ensures var a, v := PcOf(d, t).target, Exec(plan, Next(plan, d, Report(t)), events).run;
            a.number < |v.attempts| ==> Confirmed(v, a)
  {
    var a, marked := PcOf(d, t).target, Next(plan, d, Report(t));
    QuarantineMarks(plan, d, t);
    NextKeeps(plan, d, Report(t));
    forall u: nat ensures PcOf(marked, u).Idle? {
      if u != t { assert PcOf(d, u).Idle?; }
    }
    SafeForever(plan, marked, a, events);
    LastHas(plan, marked.run, a);
    SafeIsNotBroken(plan, Exec(plan, marked, events), a);
    StillThere(plan, marked, events, a);
  }

  lemma {:induction false} StillThere(plan: ExecutionPlan, d: Driver, events: seq<DriverEvent>, a: AttemptId)
    requires DriverInv(plan, d) && HasAttempt(d.run, a)
    ensures DriverInv(plan, Exec(plan, d, events)) && HasAttempt(Exec(plan, d, events).run, a)
  {
    if events != [] {
      var before := events[..|events| - 1];
      StillThere(plan, d, before, a);
      NextKeeps(plan, Exec(plan, d, before), events[|events| - 1]);
      NextGrows(plan, Exec(plan, d, before), events[|events| - 1]);
    }
  }

  /** No event forgets an attempt. */
  lemma NextGrows(plan: ExecutionPlan, d: Driver, e: DriverEvent)
    requires DriverInv(plan, d)
    ensures Next(plan, d, e).run.runId == d.run.runId
    ensures |d.run.attempts| <= |Next(plan, d, e).run.attempts|
  {
    NextCommits(plan, d, e);
    if CommitOf(d, e).Some? { CommitGrows(plan, d, CommitOf(d, e).value); }
  }

  // ----- The claim without its condition fails -----

  const TrainStep := PlanStep("training-execution", [], RetryPolicy(1, true, true))
  const TrainPlan := ExecutionPlan("p", [TrainStep])

  lemma TrainPlanValid()
    ensures ValidPlan(TrainPlan) && Ordered(TrainPlan.steps) == Some([TrainStep])
  {
    var steps := TrainPlan.steps;
    assert Ids(steps) == {"training-execution"};
    assert ReadySteps(steps, {"training-execution"}, {}) == [TrainStep];
    assert {"training-execution"} - Ids(steps) == {};
    assert OrderFrom(steps, {}, {} + Ids(steps)) == Some([]);
    assert [TrainStep] + [] == [TrainStep];
  }

  /**
   * From boot: thread 0 has made the attempt and not yet submitted it when thread 1 finds
   * it without a reference and quarantines it. Thread 0 then launches it, it fails, and
   * a resume makes a later attempt: the marked one was never confirmed as cleaned up.
   */
  lemma QuarantineCanFail(d: Driver) returns (marking: seq<DriverEvent>, a: AttemptId, rest: seq<DriverEvent>)
    requires Booted(d)
    ensures var v := Exec(TrainPlan, d, marking);
            && ValidPlan(TrainPlan) && Held(v.run, a) && Last(v.run).status.Cancelling?
            && v.launches == [] && Broken(Exec(TrainPlan, v, rest).run, a)
  {
    hide Next, DriverInv;
    TrainPlanValid();
    ReachableDriver(TrainPlan, d, []);
    a := AttemptId(d.run.runId, 1);
    var v := d;
    marking, v := SceneStarted(d, a);
    marking, v := SceneWaiting(d, marking, v, a);
    marking, v := SceneUnobserved(d, marking, v, a);
    marking, v := SceneCancelling(d, marking, v, a);
    marking, v := SceneReporting(d, marking, v, a);
    marking, v := SceneMarked(d, marking, v, a);
    assert Delivers(PcOf(v, 0), a);
    rest := ThreatBreaks(TrainPlan, v, a);
  }

  lemma SceneStarted(d: Driver, a: AttemptId) returns (events: seq<DriverEvent>, v: Driver)
    requires Booted(d) && DriverInv(TrainPlan, d) && a == AttemptId(d.run.runId, 1)
    ensures DriverInv(TrainPlan, v) && Follows(TrainPlan, d, events, v) && v.launches == []
    ensures PcOf(v, 0).Executing? && Delivers(PcOf(v, 0), a) && PcOf(v, 1).Idle? && a !in v.memory
    ensures IsLast(v.run, a) && Last(v.run).status.Pending? && Last(v.run).refs == []
    ensures v.run.observed.PlanRunning? && v.run.desired.Active? && v.run.stepStatuses == map["training-execution" := StepRunning]
  {
    hide Next, Decide, DriverInv;
    var u := Goto(d, 0, Starting);
    StartIsRead(d);
    events := Then(TrainPlan, d, [], d, NextActionRead(0));
    StartAppends(d, u);
    events := Then(TrainPlan, d, events, u, Start(0));
    v := Next(TrainPlan, u, Start(0));
  }

  lemma StartIsRead(d: Driver)
    requires Booted(d)
    ensures NextAction(TrainPlan, d.run) == CreateAttempt("training-execution")
    ensures Next(TrainPlan, d, NextActionRead(0)) == Goto(d, 0, Starting)
  {
    TrainPlanValid();
    assert NextRunnableStep(TrainPlan, d.run) == Some(TrainStep);
  }

  /** The start commits the first attempt and hands it to its thread. */
  lemma StartAppends(d: Driver, u: Driver)
    requires Booted(d) && u == Goto(d, 0, Starting)
    ensures var run := Persist(d.run, Appended(d.run, Active, "training-execution", d.clock), d.clock);
            Next(TrainPlan, u, Start(0)) == Goto(u.(run := run, clock := d.clock + 1), 0, Executing(run.attempts[0]))
  {
    hide DecideResume, DecideObserve;
    StartIsRead(d);
    AppendShape(d.run, "training-execution", d.clock);
  }

  lemma SceneWaiting(d: Driver, before: seq<DriverEvent>, u: Driver, a: AttemptId) returns (events: seq<DriverEvent>, v: Driver)
    requires DriverInv(TrainPlan, u) && Follows(TrainPlan, d, before, u) && PcOf(u, 1).Idle?
    requires IsLast(u.run, a) && Last(u.run).status.Pending?
    requires u.run.observed.PlanRunning? && u.run.desired.Active? && u.run.stepStatuses == map["training-execution" := StepRunning]
    ensures DriverInv(TrainPlan, v) && Follows(TrainPlan, d, events, v) && v == Goto(u, 1, Waiting(a))
  {
    assert NextAction(TrainPlan, u.run) == Wait(Some(a));
    v := Goto(u, 1, Waiting(a));
    events := Then(TrainPlan, d, before, u, NextActionRead(1));
  }

  lemma SceneUnobserved(d: Driver, before: seq<DriverEvent>, u: Driver, a: AttemptId) returns (events: seq<DriverEvent>, v: Driver)
    requires DriverInv(TrainPlan, u) && Follows(TrainPlan, d, before, u)
    requires PcOf(u, 1) == Waiting(a) && a !in u.memory && IsLast(u.run, a) && Last(u.run).refs == []
    ensures DriverInv(TrainPlan, v) && Follows(TrainPlan, d, events, v) && v == Goto(u, 1, Quarantining(Last(u.run), NoReference))
  {
    hide Decide, PcOk;
    PollIs(TrainPlan, u, 1, a);
    LastHas(TrainPlan, u.run, a);
    FindByNumber(u.run, a.number - 1);
    v := Goto(u, 1, Quarantining(Last(u.run), NoReference));
    events := Then(TrainPlan, d, before, u, ReadForPoll(1));
  }

  lemma SceneCancelling(d: Driver, before: seq<DriverEvent>, u: Driver, a: AttemptId) returns (events: seq<DriverEvent>, v: Driver)
    requires DriverInv(TrainPlan, u) && Follows(TrainPlan, d, before, u) && u.launches == []
    requires Delivers(PcOf(u, 0), a) && PcOf(u, 1) == Quarantining(Last(u.run), NoReference)
    requires IsLast(u.run, a) && Last(u.run).status.Pending? && u.run.desired.Active?
    ensures DriverInv(TrainPlan, v) && Follows(TrainPlan, d, events, v) && v.launches == []
    ensures Delivers(PcOf(v, 0), a) && PcOf(v, 1) == QuarantineCancelling(Last(v.run), NoReference)
    ensures v.run == u.run
  {
    hide DriverInv;
    v := Next(TrainPlan, u, QuarantineCheck(1));
    events := Then(TrainPlan, d, before, u, QuarantineCheck(1));
  }

  /** Requesting cancellation over an active last attempt holds the run at it. */
  lemma CancelHolds(plan: ExecutionPlan, d: Driver, a: AttemptId)
    requires IsLast(d.run, a) && IsActive(Last(d.run).status) && !d.run.Terminal()
    ensures Held(Commit(plan, d, RequestCancel).run, a)
    ensures Commit(plan, d, RequestCancel).run.attempts == d.run.attempts
  {
  }

  lemma SceneReporting(d: Driver, before: seq<DriverEvent>, u: Driver, a: AttemptId) returns (events: seq<DriverEvent>, v: Driver)
    requires DriverInv(TrainPlan, u) && Follows(TrainPlan, d, before, u) && u.launches == []
    requires Delivers(PcOf(u, 0), a) && PcOf(u, 1) == QuarantineCancelling(Last(u.run), NoReference)
    requires IsLast(u.run, a) && Last(u.run).status.Pending? && !u.run.Terminal()
    ensures DriverInv(TrainPlan, v) && Follows(TrainPlan, d, events, v) && v.launches == []
    ensures Delivers(PcOf(v, 0), a) && PcOf(v, 1) == QuarantineReport(Last(v.run), NoReference)
    ensures Held(v.run, a)
  {
    hide DriverInv, Unconfirmed;
    CancelHolds(TrainPlan, u, a);
    v := Goto(Commit(TrainPlan, u, RequestCancel), 1, QuarantineReport(Last(u.run), NoReference));
    events := Then(TrainPlan, d, before, u, QuarantineCancel(1));
  }

  lemma SceneMarked(d: Driver, before: seq<DriverEvent>, u: Driver, a: AttemptId) returns (events: seq<DriverEvent>, v: Driver)
    requires DriverInv(TrainPlan, u) && Follows(TrainPlan, d, before, u) && u.launches == []
    requires Delivers(PcOf(u, 0), a) && PcOf(u, 1) == QuarantineReport(Last(u.run), NoReference) && Held(u.run, a)
    ensures DriverInv(TrainPlan, v) && Follows(TrainPlan, d, events, v) && v.launches == []
    ensures Delivers(PcOf(v, 0), a) && Held(v.run, a) && Last(v.run).status.Cancelling?
  {
    hide DriverInv;
    QuarantineMarks(TrainPlan, u, 1);
    events := Then(TrainPlan, d, before, u, Report(1));
    v := Next(TrainPlan, u, Report(1));
  }

  // ----- Cancelled without confirmation is for good -----

  /** Cancelled without confirmation stays so through every event, crashes and resumes included. */
  lemma {:induction false} StoppedForever(plan: ExecutionPlan, d: Driver, a: AttemptId, events: seq<DriverEvent>)
    requires DriverInv(plan, d) && Stopped(d.run, a)
    ensures DriverInv(plan, Exec(plan, d, events)) && Stopped(Exec(plan, d, events).run, a)
    ensures Exec(plan, d, events).run.attempts == d.run.attempts
    ensures NextAction(plan, Exec(plan, d, events).run) == Wait(Some(a)) && !Resumable(Exec(plan, d, events).run.observed)
  {
    hide Next;
    if events != [] {
      var before := events[..|events| - 1];
      StoppedForever(plan, d, a, before);
      StoppedNext(plan, Exec(plan, d, before), a, events[|events| - 1]);
    }
  }

  lemma StoppedNext(plan: ExecutionPlan, d: Driver, a: AttemptId, e: DriverEvent)
    requires DriverInv(plan, d) && Stopped(d.run, a)
    ensures DriverInv(plan, Next(plan, d, e)) && Stopped(Next(plan, d, e).run, a)
    ensures Next(plan, d, e).run.attempts == d.run.attempts
  {
    NextKeeps(plan, d, e);
    NextCommits(plan, d, e);
    if CommitOf(d, e).Some? {
      StoppedCommit(plan, d, CommitOf(d, e).value, a);
    }
  }
}
