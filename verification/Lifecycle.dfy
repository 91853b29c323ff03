/**
 * Product-owned run and attempt records, the pure reconciliation policy, and each
 * control-plane operation as a decision over one loaded record.
 */
module Lifecycle {
  import opened Prelude
  import opened Plans

  datatype PlanStatus =
    | PlanPending | PlanRunning | AwaitingRetry | PlanSucceeded | PlanFailed
    | PlanBlocked | CancelRequested | PlanCancelling | PlanCancelled

  datatype DesiredState = Active | WantCancelled

  /** The rendered "<run>:<number>" identity; the rendering is injective. */
  datatype AttemptId = AttemptId(runId: string, number: nat)

  datatype Error =
    | TerminalAttempt | TerminalRun | RunMismatch | DuplicateAttempt
    | UnknownAttempt | UnknownStep | NotResumable | CannotCreate
    | StaleGeneration | UnknownRun | UnknownPlan
    | IdentityChanged | HistoryRemoved | HistoryChanged
    | IdempotencyConflict | MissingKind | MissingKey

  /**
   * References name execution sessions; the driver names a session after its attempt.
   * Instants come from a strictly increasing logical clock.
   */
  datatype Attempt = Attempt(
    id: AttemptId, runId: string, number: nat, stepId: string,
    status: AttemptStatus, refs: seq<AttemptId>, cleanupConfirmed: bool,
    error: Option<string>, createdAt: nat, observedAt: nat)

  /** The optional parts of one observation; None keeps what the attempt holds. */
  datatype Details = Details(refs: Option<seq<AttemptId>>, cleanup: Option<bool>, error: Option<string>)

  const NoDetails := Details(None, None, None)

  datatype ProductRun = ProductRun(
    runId: string, productKind: string, planId: string, idempotencyKey: string,
    desired: DesiredState, observed: PlanStatus, generation: nat,
    attempts: seq<Attempt>, stepStatuses: map<string, StepStatus>,
    createdAt: nat, updatedAt: nat)
  {
    predicate Terminal() {
      observed.PlanSucceeded? || observed.PlanFailed? || observed.PlanBlocked? || observed.PlanCancelled?
    }

    function Latest(): Option<Attempt> {
      if attempts == [] then None else Some(attempts[|attempts| - 1])
    }

    function StatusOf(stepId: string): StepStatus {
      if stepId in stepStatuses then stepStatuses[stepId] else StepPending
    }
  }

  function CreateRun(runId: string, productKind: string, planId: string, key: string, now: nat): ProductRun {
    ProductRun(runId, productKind, planId, key, Active, PlanPending, 0, [], map[], now, now)
  }

  predicate IsActive(s: AttemptStatus) {
    s.Pending? || s.Running? || s.Cancelling?
  }

  function StepStatusOf(status: AttemptStatus): StepStatus {
    match status
    case Pending => StepPending
    case Running => StepRunning
    case Succeeded => StepSucceeded
    case Failed => StepFailed
    case Lost => StepFailed
    case Blocked => StepBlocked
    case Cancelling => StepCancelling
    case Cancelled => StepCancelled
  }

  // ----- Functional updates of the records -----

  function WithObservation(a: Attempt, status: AttemptStatus, d: Details, now: nat): Result<Attempt, Error> {
    if a.status.Terminal() && status != a.status then Err(TerminalAttempt)
    else Ok(a.(status := status,
               refs := d.refs.GetOr(a.refs),
               cleanupConfirmed := d.cleanup.GetOr(a.cleanupConfirmed),
               error := if d.error.None? then a.error else d.error,
               observedAt := now))
  }

  function FindAttempt(attempts: seq<Attempt>, id: AttemptId): Option<Attempt> {
    if attempts == [] then None
    else if attempts[0].id == id then Some(attempts[0])
    else FindAttempt(attempts[1..], id)
  }

  function ReplaceAttempt(attempts: seq<Attempt>, observed: Attempt): seq<Attempt> {
    if attempts == [] then []
    else [if attempts[0].id == observed.id then observed else attempts[0]] + ReplaceAttempt(attempts[1..], observed)
  }

  function AttemptsForStep(attempts: seq<Attempt>, stepId: string): nat {
    if attempts == [] then 0
    else AttemptsForStep(attempts[..|attempts| - 1], stepId)
         + if attempts[|attempts| - 1].stepId == stepId then 1 else 0
  }

  function WithAttempt(r: ProductRun, a: Attempt): Result<ProductRun, Error> {
    if r.Terminal() then Err(TerminalRun)
    else if a.runId != r.runId then Err(RunMismatch)
    else if FindAttempt(r.attempts, a.id).Some? then Err(DuplicateAttempt)
    else Ok(r.(attempts := r.attempts + [a]))
  }

  function WithObservedAttempt(r: ProductRun, observed: Attempt): Result<ProductRun, Error> {
    match FindAttempt(r.attempts, observed.id)
    case None => Err(UnknownAttempt)
    case Some(previous) =>
      if previous.status.Terminal() && observed != previous then Err(TerminalAttempt)
      else Ok(r.(attempts := ReplaceAttempt(r.attempts, observed),
                 stepStatuses := r.stepStatuses[observed.stepId := StepStatusOf(observed.status)]))
  }

  function WithStepStatus(r: ProductRun, stepId: string, status: StepStatus): ProductRun {
    r.(stepStatuses := r.stepStatuses[stepId := status])
  }

  function WithDesiredState(r: ProductRun, desired: DesiredState): Result<ProductRun, Error> {
    if r.Terminal() && desired != r.desired then Err(TerminalRun) else Ok(r.(desired := desired))
  }

  function WithObservedStatus(r: ProductRun, observed: PlanStatus): Result<ProductRun, Error> {
    if r.Terminal() && observed != r.observed then Err(TerminalRun) else Ok(r.(observed := observed))
  }

  // ----- The reconciler -----

  /** RaisesUnknownStep is the KeyError of a plan lookup. */
  datatype Action =
    | CreateAttempt(stepId: string)
    | RetryAttempt(stepId: string, attemptId: AttemptId)
    | Wait(waitingOn: Option<AttemptId>)
    | RequestCancellation(stepId: string, attemptId: AttemptId)
    | FinalizeSucceeded | FinalizeFailed | FinalizeBlocked | FinalizeCancelled
    | Noop
    | RaisesUnknownStep

  predicate DependenciesHold(deps: seq<StepDependency>, r: ProductRun) {
    forall k | 0 <= k < |deps| :: r.StatusOf(deps[k].stepId) == deps[k].required
  }

  function FirstRunnable(ordered: seq<PlanStep>, r: ProductRun): Option<PlanStep> {
    if ordered == [] then None
    else if r.StatusOf(ordered[0].stepId).StepPending? && DependenciesHold(ordered[0].dependencies, r)
    then Some(ordered[0])
    else FirstRunnable(ordered[1..], r)
  }

  /** An existing plan object always has an order; the constructor checked it. */
  function NextRunnableStep(plan: ExecutionPlan, r: ProductRun): Option<PlanStep> {
    FirstRunnable(Ordered(plan.steps).GetOr([]), r)
  }

  predicate AnyBlocked(r: ProductRun) {
    exists s | s in r.stepStatuses :: r.stepStatuses[s].StepBlocked?
  }

  predicate AllSucceeded(plan: ExecutionPlan, r: ProductRun) {
    forall i | 0 <= i < |plan.steps| ::
      plan.steps[i].stepId in r.stepStatuses && r.stepStatuses[plan.steps[i].stepId].StepSucceeded?
  }

  /** The action once no attempt holds the run back. */
  function AdvanceAction(plan: ExecutionPlan, r: ProductRun): Action {
    match NextRunnableStep(plan, r)
    case Some(step) => CreateAttempt(step.stepId)
    case None => if AllSucceeded(plan, r) then FinalizeSucceeded else Wait(None)
  }

  function AfterFailure(plan: ExecutionPlan, r: ProductRun, latest: Attempt): Action {
    match FindStep(plan.steps, latest.stepId)
    case None => RaisesUnknownStep
    case Some(step) =>
      if step.retryPolicy.Allows(latest.status, AttemptsForStep(r.attempts, latest.stepId))
      then RetryAttempt(latest.stepId, latest.id)
      else FinalizeFailed
  }

  function CancellingAction(r: ProductRun): Action {
    match r.Latest()
    case None => FinalizeCancelled
    case Some(latest) =>
      if IsActive(latest.status) then RequestCancellation(latest.stepId, latest.id)
      else if latest.status.Cancelled? && !latest.cleanupConfirmed then Wait(Some(latest.id))
      else FinalizeCancelled
  }

  function NextAction(plan: ExecutionPlan, r: ProductRun): Action {
    if r.Terminal() then Noop
    else if r.desired.WantCancelled? then CancellingAction(r)
    else if AnyBlocked(r) then FinalizeBlocked
    else match r.Latest()
      case None => AdvanceAction(plan, r)
      case Some(latest) =>
        if IsActive(latest.status) then Wait(Some(latest.id))
        else if latest.status.Failed? || latest.status.Lost? then AfterFailure(plan, r, latest)
        else if latest.status.Blocked? then FinalizeBlocked
        else AdvanceAction(plan, r)
  }

  // ----- The control-plane operations over one loaded record -----

  datatype Op =
    | StartNextAttempt
    | ResumeAttempt(stepId: string)
    | ObserveAttempt(attemptId: AttemptId, status: AttemptStatus, details: Details, expected: Option<nat>)
    | RequestCancel
    | ApplyTerminalAction

  /** Write hands a record to compare-and-set; Keep returns the loaded record as it is. */
  datatype Decision =
    | Write(updated: ProductRun)
    | Keep
    | Raise(error: Error)

  function NewAttempt(r: ProductRun, stepId: string, now: nat): Attempt {
    var n := |r.attempts| + 1;
    Attempt(AttemptId(r.runId, n), r.runId, n, stepId, Pending, [], false, None, now, now)
  }

  function ToDecision(r: Result<ProductRun, Error>): Decision {
    match r
    case Ok(u) => Write(u)
    case Err(e) => Raise(e)
  }

  /** with_attempt, then the step is running, then the run is running. */
  function Append(r: ProductRun, stepId: string, now: nat): Decision {
    match WithAttempt(r, NewAttempt(r, stepId, now))
    case Err(e) => Raise(e)
    case Ok(u) => ToDecision(WithObservedStatus(WithStepStatus(u, stepId, StepRunning), PlanRunning))
  }

  function DecideStart(plan: ExecutionPlan, r: ProductRun, now: nat): Decision {
    match NextAction(plan, r)
    case CreateAttempt(s) => Append(r, s, now)
    case RetryAttempt(s, _) => Append(r, s, now)
    case RaisesUnknownStep => Raise(UnknownStep)
    case _ => Raise(CannotCreate)
  }

  predicate Resumable(observed: PlanStatus) {
    observed.PlanFailed? || observed.PlanCancelled? || observed.AwaitingRetry?
  }

  function DecideResume(plan: ExecutionPlan, r: ProductRun, stepId: string, now: nat): Decision {
    if !Resumable(r.observed) then Raise(NotResumable)
    else if FindStep(plan.steps, stepId).None? then Raise(UnknownStep)
    else Append(r.(desired := Active, observed := PlanRunning), stepId, now)
  }

  /** The run status an observed attempt status forces, if any. */
  function ForcedStatus(status: AttemptStatus): Option<PlanStatus> {
    match status
    case Failed => Some(AwaitingRetry)
    case Lost => Some(AwaitingRetry)
    case Cancelling => Some(PlanCancelling)
    case Cancelled => Some(CancelRequested)
    case _ => None
  }

  function DecideObserve(r: ProductRun, id: AttemptId, status: AttemptStatus, d: Details,
                         expected: Option<nat>, now: nat): Decision
  {
    if expected.Some? && expected.value != r.generation then Raise(StaleGeneration)
    else match FindAttempt(r.attempts, id)
      case None => Raise(UnknownAttempt)
      case Some(a) =>
        match WithObservation(a, status, d, now)
        case Err(e) => Raise(e)
        case Ok(observed) =>
          match WithObservedAttempt(r, observed)
          case Err(e) => Raise(e)
          case Ok(u) =>
            match ForcedStatus(status)
            case None => Write(u)
            case Some(s) => ToDecision(WithObservedStatus(u, s))
  }

  function DecideCancel(r: ProductRun): Decision {
    if r.Terminal() then Keep
    else match WithDesiredState(r, WantCancelled)
      case Err(e) => Raise(e)
      case Ok(u) => ToDecision(WithObservedStatus(u, CancelRequested))
  }

  function DecideTerminal(plan: ExecutionPlan, r: ProductRun): Decision {
    match NextAction(plan, r)
    case FinalizeSucceeded => ToDecision(WithObservedStatus(r, PlanSucceeded))
    case FinalizeFailed => ToDecision(WithObservedStatus(r, PlanFailed))
    case FinalizeBlocked => ToDecision(WithObservedStatus(r, PlanBlocked))
    case FinalizeCancelled => ToDecision(WithObservedStatus(r, PlanCancelled))
    case RaisesUnknownStep => Raise(UnknownStep)
    case _ => Keep
  }

  function Decide(plan: ExecutionPlan, r: ProductRun, op: Op, now: nat): Decision {
    match op
    case StartNextAttempt => DecideStart(plan, r, now)
    case ResumeAttempt(s) => DecideResume(plan, r, s, now)
    case ObserveAttempt(id, status, d, expected) => DecideObserve(r, id, status, d, expected, now)
    case RequestCancel => DecideCancel(r)
    case ApplyTerminalAction => DecideTerminal(plan, r)
  }

  // ----- What compare-and-set checks and stores -----

  /** Dictionary lookup: of several attempts with one identity the last one counts. */
  function Lookup(attempts: seq<Attempt>, id: AttemptId): Option<Attempt> {
    if attempts == [] then None
    else if attempts[|attempts| - 1].id == id then Some(attempts[|attempts| - 1])
    else Lookup(attempts[..|attempts| - 1], id)
  }

  predicate AttemptKept(previous: seq<Attempt>, replacement: seq<Attempt>, id: AttemptId) {
    var earlier, later := Lookup(previous, id), Lookup(replacement, id);
    earlier.Some? ==> later.Some? && (earlier.value.status.Terminal() ==> later == earlier)
  }

  predicate HistoryImmutable(previous: ProductRun, replacement: ProductRun) {
    && previous.idempotencyKey == replacement.idempotencyKey
    && previous.planId == replacement.planId
    && previous.productKind == replacement.productKind
    && forall i | 0 <= i < |previous.attempts| ::
         AttemptKept(previous.attempts, replacement.attempts, previous.attempts[i].id)
  }

  function Persist(current: ProductRun, run: ProductRun, now: nat): ProductRun {
    run.(generation := current.generation + 1, createdAt := current.createdAt, updatedAt := now)
  }

  /** One atomic operation: its instant of observation and its instant of storage. */
  datatype Event = Event(op: Op, at: nat, savedAt: nat)

  function Apply(plan: ExecutionPlan, r: ProductRun, e: Event): ProductRun {
    match Decide(plan, r, e.op, e.at)
    case Write(u) => Persist(r, u, e.savedAt)
    case _ => r
  }

  /** A run of atomic operations, oldest first. */
  function Replay(plan: ExecutionPlan, first: ProductRun, events: seq<Event>): ProductRun {
    if events == [] then first
    else Apply(plan, Replay(plan, first, events[..|events| - 1]), events[|events| - 1])
  }
}
