/**
 * The training control plane as a step system: threads of one process race on a run,
 * call the engine, and lose all memory in a crash; the durable record survives.
 */
module Driver {
  import opened Prelude
  import opened Plans
  import opened Lifecycle
  import opened LifecycleInvariant
  import opened LifecycleTheorems
  import opened Runtime

  // ----- The steps the driver knows -----

  datatype StepKind = PreflightStep | EngineStep | OtherStep

  function KindOf(stepId: string): StepKind {
    if stepId == "training-preflight" then PreflightStep
    else if stepId == "training-tiny-dry-run" || stepId == "training-execution" then EngineStep
    else OtherStep
  }

  /** Where a thread stands inside one control-plane call. */
  datatype Pc =
    | Idle
    | Finalizing
    | Starting
    | Executing(made: Attempt)
    | Submitting(target: AttemptId)
    | Reporting(target: AttemptId, status: AttemptStatus, details: Details, quarantine: bool)
    | Waiting(target: AttemptId)
    | Polling(seen: Attempt, session: AttemptId)
    | Quarantining(seen: Attempt, detail: string)
    | QuarantineCancelling(seen: Attempt, detail: string)
    | CancelDecided(target: AttemptId)
    | CancelCalling(seen: Attempt, session: AttemptId)

  /**
   * run and clock are durable; threads and memory die in a crash. launches is the
   * history of engine submissions.
   */
  datatype Driver = Driver(
    run: ProductRun, clock: nat, threads: map<nat, Pc>,
    memory: map<AttemptId, AttemptId>, launches: seq<AttemptId>)

  datatype DriverEvent =
    | NextActionRead(t: nat)
    | Finalize(t: nat)
    | Start(t: nat)
    | Evaluate(t: nat, blocked: bool)
    | Submit(t: nat)
    | SubmitReturned(t: nat, status: TrainingStatus, error: Option<string>)
    | Report(t: nat)
    | ReadForPoll(t: nat)
    | PollUnknown(t: nat)
    | PollReturned(t: nat, session: AttemptId, status: TrainingStatus, error: Option<string>)
    | QuarantineCheck(t: nat)
    | QuarantineCancel(t: nat)
    | ReadForCancel(t: nat)
    | CancelUnknown(t: nat)
    | CancelReturned(t: nat, session: AttemptId, status: TrainingStatus, error: Option<string>)
    | Raised(t: nat)
    | UserCancel
    | UserResume(t: nat, stepId: string)
    | Crash

  function PcOf(d: Driver, t: nat): Pc {
    if t in d.threads then d.threads[t] else Idle
  }

  function Goto(d: Driver, t: nat, pc: Pc): Driver {
    d.(threads := d.threads[t := pc])
  }

  /** One lifecycle operation that reaches the store. */
  function Commit(plan: ExecutionPlan, d: Driver, op: Op): Driver {
    d.(run := Apply(plan, d.run, Event(op, d.clock, d.clock)), clock := d.clock + 1)
  }

  function RecoveryError(detail: string): string {
    "EXECUTION_RECOVERY_UNAVAILABLE: " + detail
  }

  const QuarantineSuffix := "; automatic retry is quarantined until cleanup is confirmed"
  const NoReference := "active Attempt has no durable execution reference"
  const NotObservable := "execution reference cannot be observed after controller restart"
  const Mismatched := "execution reference returned mismatched session"
  const NotCancellable := "execution reference cannot be cancelled after controller restart; cleanup is unconfirmed"
  const CleanupUnconfirmed := "execution adapter did not confirm cancellation cleanup"

  function QuarantineReport(a: Attempt, detail: string): Pc {
    Reporting(a.id, Cancelling, Details(Some(a.refs), Some(false), Some(RecoveryError(detail + QuarantineSuffix))), true)
  }

  /** An unconfirmed cancellation is recorded once per cause. */
  function Unconfirmed(a: Attempt, detail: string): Pc {
    if a.status.Cancelling? && !a.cleanupConfirmed && a.error == Some(RecoveryError(detail)) then Idle
    else Reporting(a.id, Cancelling, Details(Some(a.refs), Some(false), Some(RecoveryError(detail))), false)
  }

  function DecidedPc(action: Action): Pc {
    match action
    case FinalizeSucceeded => Finalizing
    case FinalizeFailed => Finalizing
    case FinalizeBlocked => Finalizing
    case FinalizeCancelled => Finalizing
    case Noop => Idle
    case Wait(None) => Idle
    case Wait(Some(id)) => Waiting(id)
    case RequestCancellation(_, id) => CancelDecided(id)
    case CreateAttempt(_) => Starting
    case RetryAttempt(_, _) => Starting
    case RaisesUnknownStep => Idle
  }

  /** The attempt appended by an operation that went through is the last one. */
  function ExecuteNew(plan: ExecutionPlan, d: Driver, t: nat, op: Op): Driver {
    var v := Commit(plan, d, op);
    if Decide(plan, d.run, op, d.clock).Write? && v.run.attempts != []
    then Goto(v, t, Executing(v.run.attempts[|v.run.attempts| - 1]))
    else Goto(v, t, Idle)
  }

  /** The remembered session of an attempt, else its first durable reference. */
  function SessionOf(d: Driver, a: Attempt): Option<AttemptId> {
    if a.id in d.memory then Some(d.memory[a.id])
    else if a.refs == [] then None
    else Some(a.refs[0])
  }

  function Remember(d: Driver, id: AttemptId, session: AttemptId): Driver {
    d.(memory := d.memory[id := session])
  }

  function ReadSession(d: Driver, t: nat, target: AttemptId, poll: bool): Driver {
    match FindAttempt(d.run.attempts, target)
    case None => Goto(d, t, Idle)
    case Some(a) =>
      match SessionOf(d, a)
      case Some(s) => Goto(Remember(d, a.id, s), t, if poll then Polling(a, s) else CancelCalling(a, s))
      case None =>
        Goto(d, t, if poll then Quarantining(a, NoReference)
                   else Unconfirmed(a, NoReference + "; cleanup is unconfirmed"))
  }

  /** Events that only move one thread on. */
  predicate MovesThread(e: DriverEvent) {
    e.Evaluate? || e.PollUnknown? || e.PollReturned? || e.QuarantineCheck? || e.CancelUnknown? || e.CancelReturned?
  }

  /** Where such an event takes its thread; elsewhere it leaves the thread alone. */
  function MovedPc(cancelling: bool, pc: Pc, e: DriverEvent): Pc
    requires MovesThread(e)
  {
    match e
    case Evaluate(_, blocked) =>
      if pc.Executing? && KindOf(pc.made.stepId).PreflightStep?
      then Reporting(pc.made.id, if blocked then Blocked else Succeeded, NoDetails, false)
      else pc
    case PollUnknown(_) => if pc.Polling? then Quarantining(pc.seen, NotObservable) else pc
    case PollReturned(_, session, status, error) =>
      if !pc.Polling? then pc
      else if session != pc.session then Quarantining(pc.seen, Mismatched)
      else Reporting(pc.seen.id, AttemptStatusOf(status), Details(Some([session]), None, error), false)
    case QuarantineCheck(_) =>
      if !pc.Quarantining? then pc
      else if cancelling then QuarantineReport(pc.seen, pc.detail)
      else QuarantineCancelling(pc.seen, pc.detail)
    case CancelUnknown(_) => if pc.CancelCalling? then Unconfirmed(pc.seen, NotCancellable) else pc
    case CancelReturned(_, session, status, error) =>
      if !pc.CancelCalling? then pc
      else if session != pc.session then Unconfirmed(pc.seen, Mismatched)
      else if status != SCancelled then Unconfirmed(pc.seen, error.GetOr(CleanupUnconfirmed))
      else Reporting(pc.seen.id, Cancelled, Details(Some([pc.session]), Some(true), error), false)
  }

  /** An event whose thread is elsewhere leaves the driver as it is. */
  function Next(plan: ExecutionPlan, d: Driver, e: DriverEvent): Driver {
    match e
    case NextActionRead(t) =>
      if PcOf(d, t).Idle? then Goto(d, t, DecidedPc(NextAction(plan, d.run))) else d
    case Finalize(t) =>
      if PcOf(d, t).Finalizing? then Goto(Commit(plan, d, ApplyTerminalAction), t, Idle) else d
    case Start(t) =>
      if PcOf(d, t).Starting? then ExecuteNew(plan, d, t, StartNextAttempt) else d
    case Submit(t) =>
      (match PcOf(d, t)
       case Executing(a) =>
         if KindOf(a.stepId).EngineStep?
         then Goto(d.(launches := d.launches + [a.id]), t, Submitting(a.id))
         else d
       case _ => d)
    case SubmitReturned(t, status, error) =>
      (match PcOf(d, t)
       case Submitting(id) =>
         Goto(Remember(d, id, id), t, Reporting(id, AttemptStatusOf(status), Details(Some([id]), None, error), false))
       case _ => d)
    case Report(t) =>
      (match PcOf(d, t)
       case Reporting(id, status, details, _) =>
         Goto(Commit(plan, d, ObserveAttempt(id, status, details, None)), t, Idle)
       case _ => d)
    case ReadForPoll(t) =>
      (match PcOf(d, t)
       case Waiting(id) => ReadSession(d, t, id, true)
       case _ => d)
    case QuarantineCancel(t) =>
      (match PcOf(d, t)
       case QuarantineCancelling(a, detail) =>
         Goto(Commit(plan, d, RequestCancel), t, QuarantineReport(a, detail))
       case _ => d)
    case ReadForCancel(t) =>
      (match PcOf(d, t)
       case CancelDecided(id) => ReadSession(d, t, id, false)
       case _ => d)
    case Raised(t) => Goto(d, t, Idle)
    case UserCancel => Commit(plan, d, RequestCancel)
    case UserResume(t, stepId) =>
      if PcOf(d, t).Idle? then ExecuteNew(plan, d, t, ResumeAttempt(stepId)) else d
    case Crash => d.(threads := map[], memory := map[])
    case _ =>
      var pc := MovedPc(d.run.desired.WantCancelled?, PcOf(d, e.t), e);
      if pc == PcOf(d, e.t) then d else Goto(d, e.t, pc)
  }

  /** The lifecycle operation an event commits, if any. */
  function CommitOf(d: Driver, e: DriverEvent): Option<Op> {
    match e
    case Finalize(t) => if PcOf(d, t).Finalizing? then Some(ApplyTerminalAction) else None
    case Start(t) => if PcOf(d, t).Starting? then Some(StartNextAttempt) else None
    case Report(t) =>
      (match PcOf(d, t)
       case Reporting(id, status, details, _) => Some(ObserveAttempt(id, status, details, None))
       case _ => None)
    case QuarantineCancel(t) => if PcOf(d, t).QuarantineCancelling? then Some(RequestCancel) else None
    case UserCancel => Some(RequestCancel)
    case UserResume(t, stepId) => if PcOf(d, t).Idle? then Some(ResumeAttempt(stepId)) else None
    case _ => None
  }

  lemma NextCommits(plan: ExecutionPlan, d: Driver, e: DriverEvent)
    ensures Next(plan, d, e).run ==
            if CommitOf(d, e).Some? then Commit(plan, d, CommitOf(d, e).value).run else d.run
  {
  }

  lemma NextMoves(plan: ExecutionPlan, d: Driver, e: DriverEvent)
    requires MovesThread(e)
    ensures var pc := MovedPc(d.run.desired.WantCancelled?, PcOf(d, e.t), e);
            Next(plan, d, e) == if pc == PcOf(d, e.t) then d else Goto(d, e.t, pc)
  {
    hide Commit, MovedPc, NextAction;
  }

  /** What the engine's answer to a submission leaves. */
  lemma SubmitReturns(plan: ExecutionPlan, d: Driver, t: nat, status: TrainingStatus, error: Option<string>)
    requires PcOf(d, t).Submitting?
    ensures var id := PcOf(d, t).target;
            Next(plan, d, SubmitReturned(t, status, error)) ==
            Goto(Remember(d, id, id), t, Reporting(id, AttemptStatusOf(status), Details(Some([id]), None, error), false))
  {
    hide Commit, MovedPc, NextAction;
  }

  function Exec(plan: ExecutionPlan, d: Driver, events: seq<DriverEvent>): Driver {
    if events == [] then d
    else Next(plan, Exec(plan, d, events[..|events| - 1]), events[|events| - 1])
  }

  predicate Booted(d: Driver) {
    JustCreated(d.run) && d.threads == map[] && d.memory == map[] && d.launches == []
  }

  // ----- The driver invariant -----

  predicate HasAttempt(r: ProductRun, id: AttemptId) {
    id.runId == r.runId && 1 <= id.number <= |r.attempts|
  }

  /** The attempt a thread is working on. */
  function TargetOf(pc: Pc): Option<AttemptId> {
    match pc
    case Executing(a) => Some(a.id)
    case Submitting(id) => Some(id)
    case Reporting(id, _, _, _) => Some(id)
    case Waiting(id) => Some(id)
    case Polling(a, _) => Some(a.id)
    case Quarantining(a, _) => Some(a.id)
    case QuarantineCancelling(a, _) => Some(a.id)
    case CancelDecided(id) => Some(id)
    case CancelCalling(a, _) => Some(a.id)
    case _ => None
  }

  predicate IsLatestActive(r: ProductRun, id: AttemptId) {
    r.Latest().Some? && r.Latest().value.id == id && IsActive(r.Latest().value.status)
  }

  predicate PcOk(d: Driver, pc: Pc) {
    && (TargetOf(pc).Some? ==> HasAttempt(d.run, TargetOf(pc).value))
    && match pc
       case Executing(a) => a.id !in d.launches && NumberedStep(d.run, a)
       case Submitting(id) => id in d.launches
       case Polling(a, s) => a.id in d.memory && s == a.id && RefsOwn(a)
       case CancelCalling(a, s) => a.id in d.memory && s == a.id && RefsOwn(a)
       case Reporting(id, status, details, quarantine) =>
         && (!status.Cancelling? && details.refs.GetOr([]) != [] ==> id in d.memory)
         && (forall k | 0 <= k < |details.refs.GetOr([])| :: details.refs.GetOr([])[k] == id)
         && (quarantine && IsLatestActive(d.run, id) && !d.run.Terminal() ==> d.run.desired.WantCancelled?)
         && (quarantine ==> status.Cancelling?)
         && (details.cleanup == Some(true) ==> status.Cancelled?)
       case Quarantining(a, _) => RefsOwn(a)
       case QuarantineCancelling(a, _) => RefsOwn(a)
       case _ => true
  }

  predicate NumberedStep(r: ProductRun, a: Attempt) {
    HasAttempt(r, a.id) && r.attempts[a.id.number - 1].stepId == a.stepId
  }

  /** Execution references only ever name the attempt's own session. */
  predicate RefsOwn(a: Attempt) {
    forall k | 0 <= k < |a.refs| :: a.refs[k] == a.id
  }

  predicate RunRefs(r: ProductRun) {
    forall i | 0 <= i < |r.attempts| :: RefsOwn(r.attempts[i])
  }

  predicate Distinct(ids: seq<AttemptId>) {
    forall i, j | 0 <= i < j < |ids| :: ids[i] != ids[j]
  }

  predicate LaunchesKnown(d: Driver) {
    forall i | 0 <= i < |d.launches| :: HasAttempt(d.run, d.launches[i])
  }

  ghost predicate ThreadsOk(d: Driver) {
    forall t {:trigger PcOf(d, t)} :: PcOk(d, PcOf(d, t))
  }

  /** At most one thread holds the right to execute a given attempt. */
  predicate TokensOf(p: Pc, q: Pc) {
    p.Executing? && q.Executing? ==> p.made.id != q.made.id
  }

  ghost predicate TokensOk(d: Driver) {
    forall t: nat, u: nat {:trigger PcOf(d, t), PcOf(d, u)} :: t != u ==> TokensOf(PcOf(d, t), PcOf(d, u))
  }

  predicate MemoryOk(d: Driver) {
    forall id | id in d.memory :: d.memory[id] == id
  }

  ghost predicate DriverInv(plan: ExecutionPlan, d: Driver) {
    && ValidPlan(plan) && Inv(plan, d.run) && Fresh(d.run, d.clock) && RunRefs(d.run)
    && Distinct(d.launches) && LaunchesKnown(d)
    && ThreadsOk(d) && TokensOk(d) && MemoryOk(d)
  }

  // ----- How one commit moves the record -----

  predicate RunGrows(r: ProductRun, v: ProductRun) {
    && v.runId == r.runId
    && |r.attempts| <= |v.attempts|
    && (forall i | 0 <= i < |r.attempts| :: v.attempts[i].stepId == r.attempts[i].stepId)
    && (v.Latest().Some? && |v.attempts| == |r.attempts| && IsActive(v.Latest().value.status) && !v.Terminal() ==>
          && IsActive(r.Latest().value.status) && !r.Terminal()
          && (r.desired.WantCancelled? ==> v.desired.WantCancelled?))
  }

  lemma AppendGrows(r: ProductRun, desired: DesiredState, stepId: string, now: nat, later: nat)
    requires Fresh(r, now) && now < later
    ensures RunGrows(r, Appended(r, desired, stepId, now)) && Fresh(Appended(r, desired, stepId, now), later)
  {
  }

  lemma ObserveGrows(r: ProductRun, status: AttemptStatus, details: Details, now: nat, later: nat)
    requires Fresh(r, now) && now < later && r.attempts != [] && !r.attempts[|r.attempts| - 1].status.Terminal()
    requires r.Terminal() ==> ForcedStatus(status).None?
    ensures var u := ObservedLatest(r, status, details, now);
            RunGrows(r, u) && Fresh(u, later)
  {
  }

  lemma WriteGrows(plan: ExecutionPlan, r: ProductRun, op: Op, now: nat, later: nat)
    requires ValidPlan(plan) && Inv(plan, r) && Fresh(r, now) && now < later
    requires Decide(plan, r, op, now).Write?
    ensures RunGrows(r, Decide(plan, r, op, now).updated)
    ensures Fresh(Decide(plan, r, op, now).updated, later)
  {
    hide Appended, ObservedLatest;
    match op {
      case StartNextAttempt =>
        var s := StartShape(plan, r, now);
        AppendGrows(r, r.desired, s, now, later);
      case ResumeAttempt(s) =>
        ResumeShape(plan, r, s, now);
        AppendGrows(r, Active, s, now, later);
      case ObserveAttempt(id, status, d, expected) =>
        ObserveWritesIff(r, id, status, d, expected, now);
        ObserveGrows(r, status, d, now, later);
      case RequestCancel =>
      case ApplyTerminalAction => TerminalKeeps(plan, r);
    }
  }

  lemma CommitGrows(plan: ExecutionPlan, d: Driver, op: Op)
    requires ValidPlan(plan) && Inv(plan, d.run) && Fresh(d.run, d.clock)
    ensures var v := Commit(plan, d, op);
            RunGrows(d.run, v.run) && Inv(plan, v.run) && Fresh(v.run, v.clock)
  {
    ApplyKeeps(plan, d.run, Event(op, d.clock, d.clock));
    if Decide(plan, d.run, op, d.clock).Write? {
      WriteGrows(plan, d.run, op, d.clock, d.clock + 1);
    }
  }

  predicate OpRefsOwn(op: Op) {
    op.ObserveAttempt? ==> forall k | 0 <= k < |op.details.refs.GetOr([])| :: op.details.refs.GetOr([])[k] == op.attemptId
  }

  lemma WriteRefs(plan: ExecutionPlan, r: ProductRun, op: Op, now: nat)
    requires ValidPlan(plan) && Inv(plan, r) && Fresh(r, now) && RunRefs(r) && OpRefsOwn(op)
    requires Decide(plan, r, op, now).Write?
    ensures RunRefs(Decide(plan, r, op, now).updated)
  {
    match op {
      case StartNextAttempt => var s := StartShape(plan, r, now);
      case ResumeAttempt(s) => ResumeShape(plan, r, s, now);
      case ObserveAttempt(id, status, d, expected) =>
        ObserveWritesIff(r, id, status, d, expected, now);
        var last := r.attempts[|r.attempts| - 1];
        assert RefsOwn(last);
        assert id == last.id;
        if d.refs.Some? { assert d.refs.GetOr([]) == d.refs.value; }
        assert RefsOwn(Observed(last, status, d, now));
      case RequestCancel =>
      case ApplyTerminalAction => TerminalKeeps(plan, r);
    }
  }

  lemma CommitRefs(plan: ExecutionPlan, d: Driver, op: Op)
    requires ValidPlan(plan) && Inv(plan, d.run) && Fresh(d.run, d.clock) && RunRefs(d.run) && OpRefsOwn(op)
    ensures RunRefs(Commit(plan, d, op).run)
  {
    if Decide(plan, d.run, op, d.clock).Write? {
      WriteRefs(plan, d.run, op, d.clock);
    }
  }

  // ----- Survival of the other threads -----

  lemma LatestNumbered(r: ProductRun)
    requires Numbered(r) && r.attempts != []
    ensures r.Latest().value.id == AttemptId(r.runId, |r.attempts|)
  {
    assert NumberedAt(r, |r.attempts| - 1);
  }

  lemma PcSurvives(plan: ExecutionPlan, d: Driver, v: Driver, pc: Pc)
    requires Inv(plan, d.run) && Inv(plan, v.run) && RunGrows(d.run, v.run) && PcOk(d, pc)
    requires d.memory.Keys <= v.memory.Keys
    requires forall id | id in d.launches :: id in v.launches
    requires pc.Executing? ==> pc.made.id !in v.launches
    ensures PcOk(v, pc)
  {
    if pc.Reporting? && pc.quarantine && IsLatestActive(v.run, pc.target) && !v.run.Terminal() {
      LatestNumbered(v.run);
      LatestNumbered(d.run);
    }
  }

  /** One thread moves; the record, the memory and the launches may grow with it. */
  lemma ThreadMoves(plan: ExecutionPlan, d: Driver, v: Driver, t: nat)
    requires DriverInv(plan, d)
    requires Inv(plan, v.run) && RunGrows(d.run, v.run) && Fresh(v.run, v.clock) && RunRefs(v.run)
    requires d.memory.Keys <= v.memory.Keys && MemoryOk(v)
    requires v.launches == d.launches || (PcOf(d, t).Executing? && v.launches == d.launches + [PcOf(d, t).made.id])
    requires forall u: nat {:trigger PcOf(v, u)} | u != t :: PcOf(v, u) == PcOf(d, u)
    requires PcOk(v, PcOf(v, t))
    requires forall u: nat {:trigger PcOf(d, u)} | u != t :: TokensOf(PcOf(v, t), PcOf(d, u)) && TokensOf(PcOf(d, u), PcOf(v, t))
    ensures DriverInv(plan, v)
  {
    assert PcOk(d, PcOf(d, t));
    forall u: nat {:trigger PcOf(v, u)} ensures PcOk(v, PcOf(v, u)) {
      if u != t {
        assert PcOk(d, PcOf(d, u));
        assert TokensOf(PcOf(d, t), PcOf(d, u));
        PcSurvives(plan, d, v, PcOf(d, u));
      }
    }
    forall a: nat, b: nat {:trigger PcOf(v, a), PcOf(v, b)} | a != b ensures TokensOf(PcOf(v, a), PcOf(v, b)) {
      if a != t && b != t {
        assert TokensOf(PcOf(d, a), PcOf(d, b));
      }
    }
  }

  /** A move that leaves the record alone and takes no execution token. */
  lemma LocalMove(plan: ExecutionPlan, d: Driver, t: nat, pc: Pc)
    requires DriverInv(plan, d) && PcOk(d, pc) && !pc.Executing?
    ensures DriverInv(plan, Goto(d, t, pc))
  {
    var v := Goto(d, t, pc);
    PcSame(d, v, pc);
    ThreadMoves(plan, d, v, t);
  }

  lemma PcSame(d: Driver, v: Driver, pc: Pc)
    requires v.run == d.run && v.launches == d.launches && d.memory.Keys <= v.memory.Keys && PcOk(d, pc)
    ensures PcOk(v, pc)
  {
  }

  lemma CommitMove(plan: ExecutionPlan, d: Driver, op: Op, t: nat, pc: Pc)
    requires DriverInv(plan, d) && OpRefsOwn(op) && !pc.Executing? && PcOk(Commit(plan, d, op), pc)
    ensures DriverInv(plan, Goto(Commit(plan, d, op), t, pc))
  {
    hide Decide;
    CommitGrows(plan, d, op);
    CommitRefs(plan, d, op);
    var v := Goto(Commit(plan, d, op), t, pc);
    PcSame(Commit(plan, d, op), v, pc);
    ThreadMoves(plan, d, v, t);
  }

  lemma AppendedShape(plan: ExecutionPlan, d: Driver, op: Op)
    requires DriverInv(plan, d) && (op.StartNextAttempt? || op.ResumeAttempt?)
    requires Decide(plan, d.run, op, d.clock).Write?
    ensures var v := Commit(plan, d, op);
            && |v.run.attempts| == |d.run.attempts| + 1
            && v.run.attempts[|d.run.attempts|].id == AttemptId(d.run.runId, |d.run.attempts| + 1)
            && v.run.runId == d.run.runId
  {
    if op.StartNextAttempt? {
      var s := StartShape(plan, d.run, d.clock);
    } else {
      ResumeShape(plan, d.run, op.stepId, d.clock);
    }
  }

  lemma ExecuteNewKeeps(plan: ExecutionPlan, d: Driver, t: nat, op: Op)
    requires DriverInv(plan, d) && (op.StartNextAttempt? || op.ResumeAttempt?)
    ensures DriverInv(plan, ExecuteNew(plan, d, t, op))
  {
    hide Decide;
    if Decide(plan, d.run, op, d.clock).Write? {
      AppendedShape(plan, d, op);
      CommitGrows(plan, d, op);
      CommitRefs(plan, d, op);
      var v := ExecuteNew(plan, d, t, op);
      var made := v.run.attempts[|d.run.attempts|];
      forall i | 0 <= i < |d.launches| ensures d.launches[i] != made.id {
        assert HasAttempt(d.run, d.launches[i]);
      }
      forall u: nat {:trigger PcOf(d, u)} | u != t
        ensures TokensOf(PcOf(v, t), PcOf(d, u)) && TokensOf(PcOf(d, u), PcOf(v, t))
      {
        assert PcOk(d, PcOf(d, u));
      }
      assert PcOf(v, t) == Executing(made);
      assert PcOk(v, PcOf(v, t));
      ThreadMoves(plan, d, v, t);
    } else {
      CommitMove(plan, d, op, t, Idle);
    }
  }

  lemma SubmitKeeps(plan: ExecutionPlan, d: Driver, t: nat)
    requires DriverInv(plan, d)
    ensures DriverInv(plan, Next(plan, d, Submit(t)))
  {
    hide Decide;
    var pc, v := PcOf(d, t), Next(plan, d, Submit(t));
    assert PcOk(d, pc);
    if pc.Executing? && KindOf(pc.made.stepId).EngineStep? {
      forall u: nat {:trigger PcOf(d, u)} | u != t ensures TokensOf(PcOf(d, t), PcOf(d, u)) {
        assert TokensOf(PcOf(d, t), PcOf(d, u));
      }
      assert PcOk(v, PcOf(v, t));
      ThreadMoves(plan, d, v, t);
    }
  }

  lemma FoundNumbered(r: ProductRun, id: AttemptId)
    requires Numbered(r) && FindAttempt(r.attempts, id).Some?
    ensures HasAttempt(r, id) && FindAttempt(r.attempts, id).value == r.attempts[id.number - 1]
    ensures FindAttempt(r.attempts, id).value.id == id
  {
    var i := FindSome(r.attempts, id);
    assert NumberedAt(r, i);
  }

  /** A found session is remembered, and the thread goes on to call it. */
  lemma FoundSessionKeeps(plan: ExecutionPlan, d: Driver, t: nat, a: Attempt, poll: bool)
    requires DriverInv(plan, d) && HasAttempt(d.run, a.id) && RefsOwn(a) && SessionOf(d, a).Some?
    ensures var s := SessionOf(d, a).value;
            DriverInv(plan, Goto(Remember(d, a.id, s), t, if poll then Polling(a, s) else CancelCalling(a, s)))
  {
    hide Inv, RunRefs;
    var s := SessionOf(d, a).value;
    var v := Goto(Remember(d, a.id, s), t, if poll then Polling(a, s) else CancelCalling(a, s));
    assert PcOk(v, PcOf(v, t));
    ThreadMoves(plan, d, v, t);
  }

  lemma ReadSessionKeeps(plan: ExecutionPlan, d: Driver, t: nat, target: AttemptId, poll: bool)
    requires DriverInv(plan, d)
    ensures DriverInv(plan, ReadSession(d, t, target, poll))
  {
    hide ThreadsOk, TokensOk;
    if FindAttempt(d.run.attempts, target).Some? {
      FoundNumbered(d.run, target);
      var a := FindAttempt(d.run.attempts, target).value;
      assert RefsOwn(a);
      if SessionOf(d, a).Some? {
        FoundSessionKeeps(plan, d, t, a, poll);
      } else {
        LocalMove(plan, d, t, if poll then Quarantining(a, NoReference)
                              else Unconfirmed(a, NoReference + "; cleanup is unconfirmed"));
      }
    } else {
      LocalMove(plan, d, t, Idle);
    }
  }

  lemma SubmitReturnedKeeps(plan: ExecutionPlan, d: Driver, t: nat, status: TrainingStatus, error: Option<string>)
    requires DriverInv(plan, d)
    ensures DriverInv(plan, Next(plan, d, SubmitReturned(t, status, error)))
  {
    hide Decide, Inv;
    var pc, v := PcOf(d, t), Next(plan, d, SubmitReturned(t, status, error));
    assert PcOk(d, pc);
    if pc.Submitting? {
      hide Next;
      SubmitReturns(plan, d, t, status, error);
      assert PcOk(v, PcOf(v, t));
      ThreadMoves(plan, d, v, t);
    }
  }

  lemma DecidedKeeps(plan: ExecutionPlan, d: Driver, t: nat)
    requires DriverInv(plan, d)
    ensures DriverInv(plan, Next(plan, d, NextActionRead(t)))
  {
    hide Decide;
    var pc := DecidedPc(NextAction(plan, d.run));
    if TargetOf(pc).Some? {
      LatestNumbered(d.run);
    }
    LocalMove(plan, d, t, pc);
  }

  lemma FinalizeKeeps(plan: ExecutionPlan, d: Driver, t: nat)
    requires DriverInv(plan, d)
    ensures DriverInv(plan, Next(plan, d, Finalize(t)))
  {
    hide Decide;
    CommitMove(plan, d, ApplyTerminalAction, t, Idle);
  }

  lemma StartedKeeps(plan: ExecutionPlan, d: Driver, t: nat, e: DriverEvent)
    requires DriverInv(plan, d) && (e == Start(t) || (e.UserResume? && e.t == t))
    ensures DriverInv(plan, Next(plan, d, e))
  {
    hide ExecuteNew, DriverInv, MovedPc;
    ExecuteNewKeeps(plan, d, t, if e.Start? then StartNextAttempt else ResumeAttempt(e.stepId));
  }

  lemma ReadKeeps(plan: ExecutionPlan, d: Driver, t: nat, e: DriverEvent)
    requires DriverInv(plan, d) && (e == ReadForPoll(t) || e == ReadForCancel(t))
    ensures DriverInv(plan, Next(plan, d, e))
  {
    hide ReadSession, DriverInv, MovedPc;
    if PcOf(d, t).Waiting? || PcOf(d, t).CancelDecided? {
      ReadSessionKeeps(plan, d, t, PcOf(d, t).target, e.ReadForPoll?);
    }
  }

  lemma RaisedKeeps(plan: ExecutionPlan, d: Driver, t: nat)
    requires DriverInv(plan, d)
    ensures DriverInv(plan, Next(plan, d, Raised(t)))
  {
    hide Decide, DriverInv;
    LocalMove(plan, d, t, Idle);
  }

  /** Once cancellation is requested the quarantine may report. */
  lemma QuarantineReportOk(plan: ExecutionPlan, d: Driver, a: Attempt, detail: string)
    requires DriverInv(plan, d) && HasAttempt(d.run, a.id) && RefsOwn(a)
    ensures PcOk(Commit(plan, d, RequestCancel), QuarantineReport(a, detail))
  {
    hide ThreadsOk, TokensOk, NextAction;
    CommitGrows(plan, d, RequestCancel);
  }

  lemma QuarantineCancelKeeps(plan: ExecutionPlan, d: Driver, t: nat)
    requires DriverInv(plan, d)
    ensures DriverInv(plan, Next(plan, d, QuarantineCancel(t)))
  {
    hide Decide, Inv, RunRefs;
    var pc := PcOf(d, t);
    assert PcOk(d, pc);
    if pc.QuarantineCancelling? {
      QuarantineReportOk(plan, d, pc.seen, pc.detail);
      CommitMove(plan, d, RequestCancel, t, QuarantineReport(pc.seen, pc.detail));
    }
  }

  lemma ReportKeeps(plan: ExecutionPlan, d: Driver, t: nat)
    requires DriverInv(plan, d)
    ensures DriverInv(plan, Next(plan, d, Report(t)))
  {
    var pc := PcOf(d, t);
    assert PcOk(d, pc);
    if pc.Reporting? {
      CommitMove(plan, d, ObserveAttempt(pc.target, pc.status, pc.details, None), t, Idle);
    }
  }

  lemma CrashKeeps(plan: ExecutionPlan, d: Driver)
    requires DriverInv(plan, d)
    ensures DriverInv(plan, Next(plan, d, Crash))
  {
    var v := Next(plan, d, Crash);
    assert forall t {:trigger PcOf(v, t)} :: PcOf(v, t) == Idle;
  }

  lemma UserCancelKeeps(plan: ExecutionPlan, d: Driver)
    requires DriverInv(plan, d)
    ensures DriverInv(plan, Next(plan, d, UserCancel))
  {
    hide Decide;
    var v := Commit(plan, d, RequestCancel);
    CommitGrows(plan, d, RequestCancel);
    CommitRefs(plan, d, RequestCancel);
    assert PcOk(d, PcOf(d, 0));
    PcSurvives(plan, d, v, PcOf(d, 0));
    forall u: nat {:trigger PcOf(d, u)} | u != 0
      ensures TokensOf(PcOf(v, 0), PcOf(d, u)) && TokensOf(PcOf(d, u), PcOf(v, 0))
    {
      assert TokensOf(PcOf(d, 0), PcOf(d, u)) && TokensOf(PcOf(d, u), PcOf(d, 0));
    }
    ThreadMoves(plan, d, v, 0);
  }

  /** Every event keeps the driver invariant. */
  lemma NextKeeps(plan: ExecutionPlan, d: Driver, e: DriverEvent)
    requires DriverInv(plan, d)
    ensures DriverInv(plan, Next(plan, d, e))
  {
    hide Next, DriverInv;
    match e {
      case NextActionRead(t) => DecidedKeeps(plan, d, t);
      case Finalize(t) => FinalizeKeeps(plan, d, t);
      case Start(t) => StartedKeeps(plan, d, t, e);
      case Submit(t) => SubmitKeeps(plan, d, t);
      case SubmitReturned(t, status, error) => SubmitReturnedKeeps(plan, d, t, status, error);
      case Report(t) => ReportKeeps(plan, d, t);
      case ReadForPoll(t) => ReadKeeps(plan, d, t, e);
      case QuarantineCancel(t) => QuarantineCancelKeeps(plan, d, t);
      case ReadForCancel(t) => ReadKeeps(plan, d, t, e);
      case Raised(t) => RaisedKeeps(plan, d, t);
      case UserCancel => UserCancelKeeps(plan, d);
      case UserResume(t, _) => StartedKeeps(plan, d, t, e);
      case Crash => CrashKeeps(plan, d);
      case _ => MoveFrom(plan, d, e);
    }
  }

  lemma MovedOk(d: Driver, pc: Pc, e: DriverEvent)
    requires MovesThread(e) && PcOk(d, pc)
    ensures var moved := MovedPc(d.run.desired.WantCancelled?, pc, e);
            PcOk(d, moved) && (moved.Executing? ==> moved == pc)
  {
  }

  lemma MoveFrom(plan: ExecutionPlan, d: Driver, e: DriverEvent)
    requires DriverInv(plan, d) && MovesThread(e)
    ensures DriverInv(plan, Next(plan, d, e))
  {
    hide Next, MovedPc, Inv;
    var pc := MovedPc(d.run.desired.WantCancelled?, PcOf(d, e.t), e);
    assert PcOk(d, PcOf(d, e.t));
    MovedOk(d, PcOf(d, e.t), e);
    NextMoves(plan, d, e);
    if pc != PcOf(d, e.t) {
      LocalMove(plan, d, e.t, pc);
    }
  }

  lemma {:induction false} ReachableDriver(plan: ExecutionPlan, d: Driver, events: seq<DriverEvent>)
    requires ValidPlan(plan) && Booted(d)
    ensures DriverInv(plan, Exec(plan, d, events))
  {
    if events == [] {
      assert forall t {:trigger PcOf(d, t)} :: PcOf(d, t) == Idle;
    } else {
      ReachableDriver(plan, d, events[..|events| - 1]);
      NextKeeps(plan, Exec(plan, d, events[..|events| - 1]), events[|events| - 1]);
    }
  }

  /**
   * At-most-once launch: with threads racing and memory lost at any point, the engine's
   * submit is called at most once per attempt, and only for attempts of the record.
   */
  lemma AtMostOnceLaunch(plan: ExecutionPlan, d: Driver, events: seq<DriverEvent>)
    requires ValidPlan(plan) && Booted(d)
    ensures var v := Exec(plan, d, events);
            && (forall i, j | 0 <= i < |v.launches| && 0 <= j < |v.launches| && v.launches[i] == v.launches[j] :: i == j)
            && (forall i | 0 <= i < |v.launches| :: HasAttempt(v.run, v.launches[i]))
  {
    ReachableDriver(plan, d, events);
  }
}
