/**
 * In-process training sessions: each operation assigns the statuses of the session, of
 * its run and of the run's last attempt, and keeps the three in agreement.
 */
module Runtime {
  import opened Prelude
  import opened Plans

  datatype TrainingStatus =
    | SQueued | SRunning | SCancelling | SCompleted | SFailed | SCancelled | SLost | SAwaitingRetry

  /** How the control plane reads a session status. */
  function AttemptStatusOf(s: TrainingStatus): AttemptStatus {
    match s
    case SQueued => Pending
    case SRunning => Running
    case SCancelling => Cancelling
    case SCompleted => Succeeded
    case SFailed => Failed
    case SCancelled => Cancelled
    case SLost => Lost
    case SAwaitingRetry => Lost
  }

  /** A session with its run: attempts holds the status of each attempt of the run. */
  datatype Session = Session(
    status: TrainingStatus, runStatus: TrainingStatus,
    attempts: seq<TrainingStatus>, handle: Option<nat>)

  /** The status the run's own record derives from its last attempt. */
  function Derive(attempts: seq<TrainingStatus>): TrainingStatus {
    if attempts == [] then SQueued
    else if attempts[|attempts| - 1].SLost? then SAwaitingRetry
    else attempts[|attempts| - 1]
  }

  // ----- What the executor reports -----

  datatype StartOutcome = Started(handle: nat) | StartFailed(lost: bool)

  datatype PollOutcome = LostFlag | StillRuns | Exited(code: int, published: bool) | PollRaises

  datatype CancelOutcome = Outcome(stopped: bool, cleanupConfirmed: bool, remaining: nat) | CancelRaises

  predicate CleanupOk(o: CancelOutcome) {
    o.Outcome? && o.stopped && o.cleanupConfirmed && o.remaining == 0
  }

  // ----- The operations on a session value -----

  const NewSession := Session(SQueued, SQueued, [], None)

  /** Validation or environment resolution failed before any attempt. */
  const RejectedSession := Session(SFailed, SFailed, [], None)

  function RestoredSession(handle: nat): Session {
    Session(SRunning, SRunning, [SRunning], Some(handle))
  }

  function AttemptStarted(s: Session, o: StartOutcome): Session {
    match o
    case Started(h) => Session(SRunning, SRunning, s.attempts + [SRunning], Some(h))
    case StartFailed(lost) =>
      var shown := if lost then SAwaitingRetry else SFailed;
      s.(status := shown, runStatus := shown, attempts := s.attempts + [if lost then SLost else SFailed])
  }

  function WithLast(attempts: seq<TrainingStatus>, status: TrainingStatus): seq<TrainingStatus> {
    if attempts == [] then [] else attempts[|attempts| - 1 := status]
  }

  /** All three records take one status. */
  function AllTo(s: Session, status: TrainingStatus): Session {
    s.(status := status, runStatus := status, attempts := WithLast(s.attempts, status))
  }

  function MarkedLost(s: Session): Session {
    s.(status := SAwaitingRetry, runStatus := SAwaitingRetry, attempts := WithLast(s.attempts, SLost))
  }

  predicate Retryable(s: Session) {
    && (s.status.SAwaitingRetry? || s.status.SLost? || s.status.SFailed?)
    && (s.attempts != [] ==> s.attempts[|s.attempts| - 1].SLost? || s.attempts[|s.attempts| - 1].SFailed?)
  }

  /** PreparationFailed: compiling the launch or resolving its environment raised. */
  datatype RetryReply = Retried | WrongSessionStatus | WrongAttemptStatus | PreparationFailed

  predicate PollReaches(s: Session) {
    (s.status.SQueued? || s.status.SRunning?) && s.handle.Some?
  }

  function AfterPoll(s: Session, o: PollOutcome): Session {
    if !PollReaches(s) then s
    else match o
      case LostFlag => MarkedLost(s)
      case Exited(code, published) => AllTo(s, if code == 0 && published then SCompleted else SFailed)
      case _ => s
  }

  predicate CancelReaches(s: Session) {
    && !(s.status.SCompleted? || s.status.SFailed? || s.status.SCancelled? || s.status.SAwaitingRetry?)
    && !s.status.SLost? && s.handle.Some?
  }

  function CancelSettled(s: Session, o: CancelOutcome): Session {
    match o
    case CancelRaises => AllTo(s, SCancelling)
    case Outcome(_, _, _) => if CleanupOk(o) then AllTo(s, SCancelled) else MarkedLost(AllTo(s, SCancelling))
  }

  function AfterCancel(s: Session, o: CancelOutcome): Session {
    if CancelReaches(s) then CancelSettled(s, o)
    else if s.status.SLost? then s.(status := SAwaitingRetry, runStatus := SAwaitingRetry)
    else if s.status.SCompleted? || s.status.SFailed? || s.status.SCancelled? || s.status.SAwaitingRetry? then s
    else s.(status := SCancelled, runStatus := SCancelled)
  }

  /** The last attempt, if there is one, takes the status; no other attempt changes. */
  predicate OnlyLastIs(was: seq<TrainingStatus>, now: seq<TrainingStatus>, status: TrainingStatus) {
    |now| == |was| && forall i | 0 <= i < |now| :: now[i] == if i == |now| - 1 then status else was[i]
  }

  // ----- The session object -----

  class TrainingSession {
    var status: TrainingStatus
    var runStatus: TrainingStatus
    var attempts: seq<TrainingStatus>
    var handle: Option<nat>

    ghost function View(): Session
      reads this
    {
      Session(status, runStatus, attempts, handle)
    }

    constructor New()
      ensures View() == NewSession == Session(SQueued, SQueued, [], None)
    {
      status, runStatus, attempts, handle := SQueued, SQueued, [], None;
    }

    constructor Restore(worker: nat)
      ensures View() == RestoredSession(worker) == Session(SRunning, SRunning, [SRunning], Some(worker))
    {
      status, runStatus, attempts, handle := SRunning, SRunning, [SRunning], Some(worker);
    }

    method Reject()
      requires View() == NewSession
      modifies this
      ensures View() == RejectedSession == Session(SFailed, SFailed, [], None)
    {
      status := SFailed;
      runStatus := SFailed;
    }

    method StartAttempt(o: StartOutcome)
      modifies this
      ensures View() == AttemptStarted(old(View()), o)
      ensures o.Started? ==> View() == Session(SRunning, SRunning, old(attempts) + [SRunning], Some(o.handle))
      ensures o == StartFailed(true) ==> View() == Session(SAwaitingRetry, SAwaitingRetry, old(attempts) + [SLost], old(handle))
      ensures o == StartFailed(false) ==> View() == Session(SFailed, SFailed, old(attempts) + [SFailed], old(handle))
    {
      match o {
        case StartFailed(lost) =>
          attempts := attempts + [if lost then SLost else SFailed];
          runStatus := if lost then SAwaitingRetry else SFailed;
          status := runStatus;
        case Started(h) =>
          attempts := attempts + [SRunning];
          runStatus := SRunning;
          handle := Some(h);
          status := SRunning;
      }
    }

    /** A new session is rejected by validation or environment resolution, or starts its first attempt. */
    method Submit(accepted: bool, o: StartOutcome)
      requires View() == NewSession
      modifies this
      ensures View() == if accepted then AttemptStarted(NewSession, o) else RejectedSession
      ensures Stored(View())
      ensures status == runStatus == if accepted && o.Started? then SRunning else if accepted && o.lost then SAwaitingRetry else SFailed
      ensures attempts == if !accepted then [] else if o.Started? then [SRunning] else if o.lost then [SLost] else [SFailed]
      ensures handle == if accepted && o.Started? then Some(o.handle) else None
    {
      if accepted {
        StartAttempt(o);
      } else {
        Reject();
      }
    }

    /** Both statuses are checked, then the launch is prepared; whatever raises leaves the session. */
    method Retry(prepared: bool, o: StartOutcome) returns (reply: RetryReply)
      modifies this
      ensures reply.Retried? <==> old(Retryable(View())) && prepared
      ensures View() == if reply.Retried? then AttemptStarted(old(View()), o) else old(View())
      ensures reply ==
              if old(status) !in {SAwaitingRetry, SLost, SFailed} then WrongSessionStatus
              else if old(attempts) != [] && old(attempts)[|old(attempts)| - 1] !in {SLost, SFailed} then WrongAttemptStatus
              else if prepared then Retried else PreparationFailed
    {
      if !(status.SAwaitingRetry? || status.SLost? || status.SFailed?) {
        return WrongSessionStatus;
      }
      if attempts != [] && !(attempts[|attempts| - 1].SLost? || attempts[|attempts| - 1].SFailed?) {
        return WrongAttemptStatus;
      }
      if !prepared {
        return PreparationFailed;
      }
      StartAttempt(o);
      return Retried;
    }

    method MarkAttemptLost()
      modifies this
      ensures View() == MarkedLost(old(View()))
      ensures status == runStatus == SAwaitingRetry && handle == old(handle) && OnlyLastIs(old(attempts), attempts, SLost)
    {
      if attempts != [] {
        attempts := attempts[|attempts| - 1 := SLost];
      }
      status := SAwaitingRetry;
      runStatus := SAwaitingRetry;
    }

    method SetAll(shown: TrainingStatus)
      modifies this
      ensures View() == AllTo(old(View()), shown)
      ensures status == runStatus == shown && handle == old(handle) && OnlyLastIs(old(attempts), attempts, shown)
    {
      status := shown;
      runStatus := shown;
      if attempts != [] {
        attempts := attempts[|attempts| - 1 := shown];
      }
    }

    /**
     * Only a queued or running session with a handle is polled. It completes exactly on exit
     * code zero with published outputs and fails on every other exit; a lost worker waits
     * for a retry; a running one, or an executor that raises, changes nothing. A failed
     * publication overwrites the status the exit code had just set.
     */
    method Poll(o: PollOutcome)
      modifies this
      ensures View() == AfterPoll(old(View()), o)
      ensures old(status) !in {SQueued, SRunning} || old(handle).None? || o.StillRuns? || o.PollRaises? ==> View() == old(View())
      ensures old(status) in {SQueued, SRunning} && old(handle).Some? && o.Exited? ==>
                && (status.SCompleted? <==> o.code == 0 && o.published) && (status.SFailed? <==> o.code != 0 || !o.published)
                && runStatus == status && handle == old(handle) && OnlyLastIs(old(attempts), attempts, status)
      ensures old(status) in {SQueued, SRunning} && old(handle).Some? && o.LostFlag? ==>
                && status == runStatus == SAwaitingRetry && handle == old(handle) && OnlyLastIs(old(attempts), attempts, SLost)
    {
      if !(status.SQueued? || status.SRunning?) || handle.None? {
        return;
      }
      match o {
        case LostFlag => MarkAttemptLost();
        case Exited(code, published) =>
          SetAll(if code == 0 then SCompleted else SFailed);
          if !published {
            SetAll(SFailed);
          }
        case _ =>
      }
    }

    /**
     * A session that is over, or waits for a retry, stays. One with a handle is cancelled
     * exactly when the executor stopped it, confirmed the cleanup and left nothing; otherwise
     * its attempt is lost. While the executor works the three records are cancelling, and
     * they stay so if it raises.
     */
    method Cancel(o: CancelOutcome)
      modifies this
      ensures View() == AfterCancel(old(View()), o)
      ensures old(status) in {SCompleted, SFailed, SCancelled, SAwaitingRetry} ==> View() == old(View())
      ensures old(status) == SLost ==> View() == Session(SAwaitingRetry, SAwaitingRetry, old(attempts), old(handle))
      ensures old(status) in {SQueued, SRunning, SCancelling} && old(handle).None? ==>
                View() == Session(SCancelled, SCancelled, old(attempts), None)
      ensures old(status) in {SQueued, SRunning, SCancelling} && old(handle).Some? ==>
                && (status.SCancelled? <==> o.Outcome? && o.stopped && o.cleanupConfirmed && o.remaining == 0)
                && (status.SCancelling? <==> o.CancelRaises?)
                && status in {SCancelled, SCancelling, SAwaitingRetry} && runStatus == status && handle == old(handle)
                && OnlyLastIs(old(attempts), attempts, if status.SAwaitingRetry? then SLost else status)
    {
      if status.SCompleted? || status.SFailed? || status.SCancelled? || status.SAwaitingRetry? {
        return;
      }
      if status.SLost? {
        status := SAwaitingRetry;
        runStatus := SAwaitingRetry;
        return;
      }
      if handle.None? {
        status := SCancelled;
        runStatus := SCancelled;
        return;
      }
      SetAll(SCancelling);
      if o.Outcome? {
        if o.stopped && o.cleanupConfirmed && o.remaining == 0 {
          SetAll(SCancelled);
        } else {
          MarkAttemptLost();
        }
      }
    }
  }

  // ----- Every life of a stored session -----

  datatype SessionEvent = Retry(prepared: bool, start: StartOutcome) | Poll(poll: PollOutcome) | Cancel(cancel: CancelOutcome)

  function Lived(s: Session, e: SessionEvent): Session {
    match e
    case Retry(prepared, o) => if Retryable(s) && prepared then AttemptStarted(s, o) else s
    case Poll(o) => AfterPoll(s, o)
    case Cancel(o) => AfterCancel(s, o)
  }

  /** What submit and restore put into the session map. */
  ghost predicate Stored(s: Session) {
    || s == RejectedSession
    || (exists o :: s == AttemptStarted(NewSession, o))
    || (exists h :: s == RestoredSession(h))
  }

  function Life(s: Session, events: seq<SessionEvent>): Session {
    if events == [] then s else Lived(Life(s, events[..|events| - 1]), events[|events| - 1])
  }

  predicate Agrees(s: Session) {
    s.status == s.runStatus == Derive(s.attempts)
  }

  /** Attempts behind the last one failed or were lost. */
  predicate Superseded(s: Session) {
    forall i | 0 <= i < |s.attempts| - 1 :: s.attempts[i].SLost? || s.attempts[i].SFailed?
  }

  predicate SessionInv(s: Session) {
    && (s.attempts == [] ==> s == RejectedSession)
    && (s.attempts != [] ==> Agrees(s))
    && (s.handle.None? ==> s.status.SFailed? || s.status.SAwaitingRetry?)
    && (s.attempts != [] ==> !s.attempts[|s.attempts| - 1].SQueued? && !s.attempts[|s.attempts| - 1].SAwaitingRetry?)
    && Superseded(s)
  }

  lemma LivedKeeps(s: Session, e: SessionEvent)
    requires SessionInv(s)
    ensures SessionInv(Lived(s, e))
  {
  }

  lemma {:induction false} LifeKeeps(s: Session, events: seq<SessionEvent>)
    requires Stored(s)
    ensures SessionInv(Life(s, events))
  {
    if events != [] {
      LifeKeeps(s, events[..|events| - 1]);
      LivedKeeps(Life(s, events[..|events| - 1]), events[|events| - 1]);
    }
  }

  /**
   * After any life of a session, session, run and last attempt agree exactly when the
   * session has an attempt; the session rejected before its first attempt shows FAILED
   * where its run derives QUEUED.
   */
  lemma {:induction false} RuntimeAgreementIff(s: Session, events: seq<SessionEvent>)
    requires Stored(s)
    ensures Agrees(Life(s, events)) <==> Life(s, events).attempts != []
    ensures Life(s, events).attempts == [] ==> Life(s, events) == Session(SFailed, SFailed, [], None)
    ensures var v := Life(s, events);
            v.attempts != [] ==>
              v.status == v.runStatus == if v.attempts[|v.attempts| - 1].SLost? then SAwaitingRetry else v.attempts[|v.attempts| - 1]
  {
    LifeKeeps(s, events);
  }

  /** A lost attempt never shows as a completed run, and every attempt left behind had failed or was lost. */
  lemma {:induction false} LostNeverCompletes(s: Session, events: seq<SessionEvent>)
    requires Stored(s)
    ensures var v := Life(s, events);
            && (v.attempts != [] && v.attempts[|v.attempts| - 1].SLost? ==> v.runStatus == v.status == SAwaitingRetry)
            && (v.runStatus.SCompleted? ==> v.attempts != [] && v.attempts[|v.attempts| - 1].SCompleted?)
            && Superseded(v)
  {
    LifeKeeps(s, events);
  }

  /** Completion and confirmed cancellation are final; the branch for a session without a
      handle never runs on a stored session. */
  lemma {:induction false} SessionEndsAreFinal(s: Session, events: seq<SessionEvent>, e: SessionEvent)
    requires Stored(s)
    ensures var v := Life(s, events);
            && (v.status.SCompleted? || v.status.SCancelled? ==> Lived(v, e) == v)
            && (e.Cancel? && v.handle.None? ==> Lived(v, e) == v)
  {
    LifeKeeps(s, events);
  }
}
