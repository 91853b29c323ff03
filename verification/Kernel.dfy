/**
 * The Kernel lease protocol of one training worker as a step system: every RPC and every
 * receipt save is a step of its own, and a crash may fall between any two of them. One
 * process owns the state directory, and its lock serialises the calls on a worker.
 */
module Kernel {
  import opened Prelude

  datatype Rpc = AcquireLease | StartWorker | RenewLease | ReleaseLease

  /** The receipt document: which parts of it are filled in. */
  datatype Receipt = Receipt(lease: bool, installed: bool, operation: bool, released: bool, renewalFailed: bool)

  const EmptyReceipt := Receipt(false, false, false, false, false)

  datatype Stage =
    | Acquiring | SavingLease | Installing | SavingInstallation | StartingWorker | SavingOperation
    | Releasing | SavingRelease | Renewing | SavingRenewal

  datatype Purpose = ForStart | ForPoll(code: int) | ForCancel | ForRenewal

  /** The call that holds the lock, with its copy of the receipt in memory. */
  datatype Call = NoCall | InCall(mem: Receipt, stage: Stage, purpose: Purpose)

  /** What the last finished call handed to its caller. */
  datatype Outcome =
    | Nothing | HandleReturned | StartError(lost: bool)
    | StillRunning | ExitCode(code: int) | PollError
    | CancelOutcome(confirmed: bool) | CancelError

  /**
   * durable, trace and terminal survive a crash: the saved receipt, the RPCs issued so
   * far, and whether the Kernel has reported a terminal lease state.
   */
  datatype Worker = Worker(
    durable: Option<Receipt>, call: Call, handle: bool, out: Outcome,
    trace: seq<Rpc>, terminal: bool)

  const NewWorker := Worker(None, NoCall, false, Nothing, [], false)

  datatype ReleaseReply = TerminalState | OtherState | ReleaseFailed

  /** What the installation directory shows a poll. */
  datatype Sighting = Completed(code: int) | BadCompletion | Stale | Alive

  datatype WorkerEvent =
    | BeginStart(saved: bool)
    | AcquireReturned(ok: bool)
    | InstallReturned(ok: bool)
    | StartReturned(ok: bool)
    | Saved(ok: bool)
    | BeginPoll(sighting: Sighting)
    | BeginCancel
    | ReleaseReturned(reply: ReleaseReply)
    | BeginRenewal
    | RenewReturned(ok: bool)
    | Recover
    | Take
    | Crash

  function Issue(w: Worker, mem: Receipt, stage: Stage, purpose: Purpose, rpc: Rpc): Worker {
    w.(call := InCall(mem, stage, purpose), trace := w.trace + [rpc])
  }

  function Finish(w: Worker, out: Outcome): Worker {
    w.(call := NoCall, out := out)
  }

  function Confirmation(purpose: Purpose): Outcome {
    match purpose
    case ForStart => StartError(false)
    case ForPoll(code) => ExitCode(code)
    case ForCancel => CancelOutcome(true)
    case ForRenewal => Nothing
  }

  /** An unconfirmed release: cancel reports it, poll raises it, start turns it into LOST. */
  function Unconfirmed(purpose: Purpose): Outcome {
    match purpose
    case ForStart => StartError(true)
    case ForPoll(_) => PollError
    case ForCancel => CancelOutcome(false)
    case ForRenewal => Nothing
  }

  /** A receipt that cannot be saved: only start catches it. */
  function SaveError(purpose: Purpose): Outcome {
    match purpose
    case ForStart => StartError(true)
    case ForPoll(_) => PollError
    case ForCancel => CancelError
    case ForRenewal => Nothing
  }

  function Release(w: Worker, mem: Receipt, purpose: Purpose): Worker {
    if mem.released then Finish(w, Confirmation(purpose)) else Issue(w, mem, Releasing, purpose, ReleaseLease)
  }

  function SaveReturned(w: Worker, ok: bool): Worker
    requires w.call.InCall?
  {
    var mem, purpose := w.call.mem, w.call.purpose;
    var v := if ok then w.(durable := Some(mem)) else w;
    match w.call.stage
    case SavingLease => if ok then v.(call := InCall(mem, Installing, ForStart)) else Release(w, mem, ForStart)
    case SavingInstallation =>
      if ok then Issue(v, mem, StartingWorker, ForStart, StartWorker) else Release(w, mem, ForStart)
    case SavingOperation =>
      if ok then Finish(v, HandleReturned).(handle := true) else Release(w, mem, ForStart)
    case SavingRelease => Finish(v, if ok then Confirmation(purpose) else SaveError(purpose))
    case SavingRenewal => Finish(v, Nothing)
    case _ => w
  }

  /** A receipt is renewed while its operation is recorded and its release is not. */
  predicate Renewable(w: Worker) {
    w.durable.Some? && !w.durable.value.released && w.durable.value.lease && w.durable.value.operation
  }

  /** An event out of place leaves the worker as it is. */
  function Step(w: Worker, e: WorkerEvent): Worker {
    match e
    case BeginStart(saved) =>
      if w.durable.None? && w.call.NoCall? && saved
      then Issue(w.(durable := Some(EmptyReceipt)), EmptyReceipt, Acquiring, ForStart, AcquireLease)
      else w
    case AcquireReturned(ok) =>
      if w.call.InCall? && w.call.stage.Acquiring?
      then if ok then w.(call := InCall(w.call.mem.(lease := true), SavingLease, ForStart))
           else Finish(w, StartError(true))
      else w
    case InstallReturned(ok) =>
      if w.call.InCall? && w.call.stage.Installing?
      then if ok then w.(call := InCall(w.call.mem.(installed := true), SavingInstallation, ForStart))
           else Release(w, w.call.mem, ForStart)
      else w
    case StartReturned(ok) =>
      if w.call.InCall? && w.call.stage.StartingWorker?
      then if ok then w.(call := InCall(w.call.mem.(operation := true), SavingOperation, ForStart))
           else Release(w, w.call.mem, ForStart)
      else w
    case Saved(ok) => if w.call.InCall? then SaveReturned(w, ok) else w
    case BeginPoll(sighting) =>
      if w.call.NoCall? && w.handle && w.durable.Some?
      then match sighting
           case Completed(code) => Release(w, w.durable.value, ForPoll(code))
           case BadCompletion => Finish(w, PollError)
           case Stale => Release(w, w.durable.value, ForPoll(1))
           case Alive =>
             if w.durable.value.renewalFailed then Release(w, w.durable.value, ForPoll(1)) else Finish(w, StillRunning)
      else w
    case BeginCancel =>
      if w.call.NoCall? && w.handle && w.durable.Some? then Release(w, w.durable.value, ForCancel) else w
    case ReleaseReturned(reply) =>
      if w.call.InCall? && w.call.stage.Releasing?
      then if reply.TerminalState?
           then w.(call := InCall(w.call.mem.(released := true), SavingRelease, w.call.purpose), terminal := true)
           else Finish(w, Unconfirmed(w.call.purpose))
      else w
    case BeginRenewal =>
      if w.call.NoCall? && Renewable(w)
      then Issue(w, w.durable.value, Renewing, ForRenewal, RenewLease)
      else w
    case RenewReturned(ok) =>
      if w.call.InCall? && w.call.stage.Renewing?
      then w.(call := InCall(if ok then w.call.mem else w.call.mem.(renewalFailed := true), SavingRenewal, ForRenewal))
      else w
    case Recover =>
      if w.call.NoCall? && w.durable.Some? && w.durable.value.operation && w.durable.value.lease
      then w.(handle := true) else w
    case Take => w.(out := Nothing)
    case Crash => w.(call := NoCall, handle := false, out := Nothing)
  }

  function Run(w: Worker, events: seq<WorkerEvent>): Worker {
    if events == [] then w else Step(Run(w, events[..|events| - 1]), events[|events| - 1])
  }

  // ----- The language of the RPC trace -----

  predicate Tail(trace: seq<Rpc>) {
    forall i | 2 <= i < |trace| :: trace[i].RenewLease? || trace[i].ReleaseLease?
  }

  /** One acquire, then one start, then renewals and releases. */
  predicate StartedTrace(trace: seq<Rpc>) {
    |trace| >= 2 && trace[0] == AcquireLease && trace[1] == StartWorker && Tail(trace)
  }

  /** A start that has not handed out a handle: at most one release ends it. */
  predicate UnstartedTrace(trace: seq<Rpc>) {
    || trace == [AcquireLease]
    || trace == [AcquireLease, StartWorker]
    || trace == [AcquireLease, ReleaseLease]
    || trace == [AcquireLease, StartWorker, ReleaseLease]
  }

  predicate Language(trace: seq<Rpc>) {
    trace == [] || UnstartedTrace(trace) || StartedTrace(trace)
  }

  // ----- The worker invariant -----

  predicate IsReleased(w: Worker) {
    w.durable.Some? && w.durable.value.released
  }

  /** A handle exists or can be recovered. */
  predicate Operating(w: Worker) {
    w.durable.Some? && w.durable.value.operation
  }

  predicate Leased(w: Worker)
    requires w.call.InCall?
  {
    w.call.mem.lease && !w.call.mem.released && !w.call.mem.operation
  }

  /** A failed start gives its lease back; an operation the Kernel accepted is in memory only. */
  predicate Abandoning(w: Worker)
    requires w.call.InCall?
  {
    w.call.mem.lease && UnstartedTrace(w.trace) && (w.call.mem.operation ==> StartedTrace(w.trace))
  }

  predicate StartStage(w: Worker) {
    w.call.InCall? && w.durable.Some? && !w.durable.value.operation && !w.durable.value.released
    && match w.call.stage
       case Acquiring => w.trace == [AcquireLease] && w.call.mem == EmptyReceipt
       case SavingLease => Leased(w) && w.trace == [AcquireLease]
       case Installing => Leased(w) && w.trace == [AcquireLease]
       case SavingInstallation => Leased(w) && w.trace == [AcquireLease]
       case StartingWorker => Leased(w) && w.trace == [AcquireLease, StartWorker]
       case SavingOperation =>
         && w.trace == [AcquireLease, StartWorker]
         && w.call.mem.lease && w.call.mem.operation && !w.call.mem.released
       case Releasing => Abandoning(w) && !w.call.mem.released
       case SavingRelease => Abandoning(w) && w.call.mem.released && w.terminal
       case _ => false
  }

  predicate CallOk(w: Worker) {
    match w.call
    case NoCall =>
      (w.durable.None? ==> w.trace == []) && (w.durable.Some? && !w.durable.value.operation ==> UnstartedTrace(w.trace))
    case InCall(mem, stage, purpose) =>
      if purpose.ForStart? then StartStage(w)
      else
        && Operating(w) && !w.durable.value.released && mem.operation && mem.lease
        && (if purpose.ForRenewal? then stage.Renewing? || stage.SavingRenewal?
            else stage.Releasing? || stage.SavingRelease?)
        && (stage.SavingRelease? ==> w.terminal && mem.released)
        && (!stage.SavingRelease? ==> !mem.released)
  }

  predicate OutOk(w: Worker) {
    match w.out
    case HandleReturned => Operating(w)
    case StartError(lost) => w.durable.Some? && (lost <==> !IsReleased(w))
    case ExitCode(_) => Operating(w) && IsReleased(w)
    case CancelOutcome(confirmed) => Operating(w) && (confirmed <==> IsReleased(w))
    case _ => true
  }

  predicate WorkerInv(w: Worker) {
    && (Operating(w) ==> w.durable.value.lease && StartedTrace(w.trace))
    && (IsReleased(w) ==> w.terminal)
    && (w.handle ==> Operating(w))
    && CallOk(w) && OutOk(w)
  }

  /** A save of a start, and a save of a release or a renewal. */
  lemma StartSavedKeeps(w: Worker, ok: bool)
    requires WorkerInv(w) && w.call.InCall? && !w.call.stage.SavingRelease? && !w.call.stage.SavingRenewal?
    ensures WorkerInv(SaveReturned(w, ok))
  {
    hide Confirmation, SaveError;
  }

  lemma EndSavedKeeps(w: Worker, ok: bool)
    requires WorkerInv(w) && w.call.InCall? && (w.call.stage.SavingRelease? || w.call.stage.SavingRenewal?)
    ensures WorkerInv(SaveReturned(w, ok))
  {
    hide Release;
  }

  lemma SavedKeeps(w: Worker, ok: bool)
    requires WorkerInv(w) && w.call.InCall?
    ensures WorkerInv(SaveReturned(w, ok))
  {
    hide WorkerInv, SaveReturned;
    if w.call.stage.SavingRelease? || w.call.stage.SavingRenewal? {
      EndSavedKeeps(w, ok);
    } else {
      StartSavedKeeps(w, ok);
    }
  }

  lemma StepKeeps(w: Worker, e: WorkerEvent)
    requires WorkerInv(w)
    ensures WorkerInv(Step(w, e))
  {
    if e.Saved? {
      if w.call.InCall? { SavedKeeps(w, e.ok); }
    } else if e.ReleaseReturned? || e.BeginPoll? || e.BeginCancel? {
      ReleaseKeeps(w, e);
    } else {
      OthersKeep(w, e);
    }
  }

  lemma ReleaseKeeps(w: Worker, e: WorkerEvent)
    requires WorkerInv(w) && (e.ReleaseReturned? || e.BeginPoll? || e.BeginCancel?)
    ensures WorkerInv(Step(w, e))
  {
  }

  lemma OthersKeep(w: Worker, e: WorkerEvent)
    requires WorkerInv(w) && !e.Saved? && !e.ReleaseReturned? && !e.BeginPoll? && !e.BeginCancel?
    ensures WorkerInv(Step(w, e))
  {
    hide SaveReturned, Confirmation, Unconfirmed;
  }

  lemma {:induction false} RunKeeps(w: Worker, events: seq<WorkerEvent>)
    requires WorkerInv(w)
    ensures WorkerInv(Run(w, events))
  {
    if events != [] {
      RunKeeps(w, events[..|events| - 1]);
      StepKeeps(Run(w, events[..|events| - 1]), events[|events| - 1]);
    }
  }

  // ----- What every run of a worker shows -----

  /** The RPCs of a worker: one acquire, at most one start, then renewals and releases;
      a failed start issues at most one release and nothing else. */
  lemma {:induction false} LeaseProtocol(events: seq<WorkerEvent>)
    ensures Language(Run(NewWorker, events).trace)
  {
    RunKeeps(NewWorker, events);
  }

  /** v is w, or w with one more RPC that the protocol allows there. */
  predicate RpcInPlace(w: Worker, v: Worker) {
    && w.trace <= v.trace && |v.trace| <= |w.trace| + 1
    && (v.trace != w.trace ==>
          match v.trace[|w.trace|]
          case AcquireLease => w.trace == [] && w.durable.None?
          case StartWorker => w.trace == [AcquireLease] && w.call.InCall? && w.call.mem.lease && !IsReleased(w)
          case RenewLease => Operating(w) && !IsReleased(w) && w.call.NoCall?
          case ReleaseLease => !IsReleased(w) && (Operating(w) || UnstartedTrace(w.trace)))
  }

  lemma SavedInPlace(w: Worker, ok: bool)
    requires WorkerInv(w) && w.call.InCall?
    ensures RpcInPlace(w, SaveReturned(w, ok))
  {
    hide OutOk;
  }

  /** The events that may begin a release. */
  lemma ReleasesInPlace(w: Worker, e: WorkerEvent)
    requires WorkerInv(w) && (e.BeginPoll? || e.BeginCancel? || e.InstallReturned? || e.StartReturned?)
    ensures RpcInPlace(w, Step(w, e))
  {
    hide OutOk, SaveReturned;
  }

  lemma OthersInPlace(w: Worker, e: WorkerEvent)
    requires WorkerInv(w) && !e.Saved? && !e.BeginPoll? && !e.BeginCancel? && !e.InstallReturned? && !e.StartReturned?
    ensures RpcInPlace(w, Step(w, e))
  {
    hide OutOk, SaveReturned, Release;
  }

  /** Each RPC is issued only where the protocol allows it. */
  lemma RpcsInPlace(w: Worker, e: WorkerEvent)
    requires WorkerInv(w)
    ensures RpcInPlace(w, Step(w, e))
  {
    if e.Saved? {
      hide WorkerInv;
      if w.call.InCall? { SavedInPlace(w, e.ok); }
    } else if e.BeginPoll? || e.BeginCancel? || e.InstallReturned? || e.StartReturned? {
      hide WorkerInv, Step;
      ReleasesInPlace(w, e);
    } else {
      hide WorkerInv, Step;
      OthersInPlace(w, e);
    }
  }

  /** A released receipt stays released, and no RPC follows it. */
  lemma {:induction false} ReleasedIsSilent(w: Worker, events: seq<WorkerEvent>)
    requires WorkerInv(w) && IsReleased(w)
    ensures WorkerInv(Run(w, events)) && IsReleased(Run(w, events)) && Run(w, events).trace == w.trace
    ensures Operating(w) ==> Operating(Run(w, events))
  {
    if events != [] {
      ReleasedIsSilent(w, events[..|events| - 1]);
      var v, e := Run(w, events[..|events| - 1]), events[|events| - 1];
      StepKeeps(v, e);
      RpcsInPlace(v, e);
      ReleasedStays(v, e);
    }
  }

  lemma ReleasedStays(w: Worker, e: WorkerEvent)
    requires WorkerInv(w)
    ensures IsReleased(w) ==> IsReleased(Step(w, e))
    ensures Operating(w) ==> Operating(Step(w, e))
  {
  }

  lemma {:induction false} RunThree(w: Worker, a: WorkerEvent, b: WorkerEvent, c: WorkerEvent)
    ensures Run(w, [a, b, c]) == Step(Step(Step(w, a), b), c)
  {
    assert [a, b, c][..2] == [a, b] && [a, b][..1] == [a] && [a][..0] == [];
    assert Run(w, [a]) == Step(Run(w, []), a);
    assert Run(w, [a, b]) == Step(Run(w, [a]), b);
  }

  predicate Speaks(w: Worker, events: seq<WorkerEvent>) {
    Run(w, events).trace != w.trace
  }

  /**
   * A worker that has run falls silent exactly when its release is saved: a terminal
   * reply that a crash keeps from the receipt is asked for again.
   */
  lemma SilentIffSaved(w: Worker)
    requires WorkerInv(w) && Operating(w)
    ensures (exists events :: Speaks(w, events)) <==> !IsReleased(w)
  {
    if IsReleased(w) {
      forall events ensures !Speaks(w, events) { ReleasedIsSilent(w, events); }
    } else {
      RunThree(w, Crash, Recover, BeginCancel);
      assert Speaks(w, [Crash, Recover, BeginCancel]);
    }
  }

  /** While a release is being saved, a crash makes the executor ask for it again. */
  lemma UnsavedReleaseRepeats(w: Worker)
    requires WorkerInv(w) && w.call.InCall? && w.call.stage.SavingRelease? && !w.call.purpose.ForStart?
    ensures w.terminal && Run(w, [Crash, Recover, BeginCancel]).trace == w.trace + [ReleaseLease]
  {
    RunThree(w, Crash, Recover, BeginCancel);
  }

  /** A worker that is started, and cancelled up to the Kernel's terminal reply. */
  const CancelledUnsaved: seq<WorkerEvent> :=
    [BeginStart(true), AcquireReturned(true), Saved(true)]
    + [InstallReturned(true), Saved(true), StartReturned(true)]
    + [Saved(true), BeginCancel, ReleaseReturned(TerminalState)]

  /**
   * The Kernel's terminal reply alone does not end the conversation: when the crash falls
   * before the receipt is saved, the same release is requested again.
   */
  lemma {:induction false} TerminalReplyCanRepeat()
    ensures var w := Run(NewWorker, CancelledUnsaved);
            && w.terminal && w.trace == [AcquireLease, StartWorker, ReleaseLease]
            && Run(NewWorker, CancelledUnsaved + [Crash, Recover, BeginCancel]).trace
               == [AcquireLease, StartWorker, ReleaseLease, ReleaseLease]
  {
    ReachesRelease();
    RunKeeps(NewWorker, CancelledUnsaved);
    UnsavedReleaseRepeats(Run(NewWorker, CancelledUnsaved));
    RunJoins(NewWorker, CancelledUnsaved, [Crash, Recover, BeginCancel]);
  }

  lemma {:induction false} ReachesRelease()
    ensures var w := Run(NewWorker, CancelledUnsaved);
            && w.terminal && w.trace == [AcquireLease, StartWorker, ReleaseLease]
            && w.call.InCall? && w.call.stage.SavingRelease? && w.call.purpose.ForCancel?
  {
    var first: seq<WorkerEvent> := [BeginStart(true), AcquireReturned(true), Saved(true)];
    var second: seq<WorkerEvent> := [InstallReturned(true), Saved(true), StartReturned(true)];
    RunJoins(NewWorker, first + second, [Saved(true), BeginCancel, ReleaseReturned(TerminalState)]);
    RunJoins(NewWorker, first, second);
    LeaseGranted();
    WorkerStarted();
    CancelAnswered();
  }

  const WithLease := NewWorker.(durable := Some(LeasedReceipt), trace := [AcquireLease],
                                call := InCall(LeasedReceipt, Installing, ForStart))

  /** The receipt of an installed worker on a lease, before and after its operation is known. */
  const Installed := LeasedReceipt.(installed := true)

  const WithOperation := NewWorker.(durable := Some(Installed), trace := [AcquireLease, StartWorker],
                                    call := InCall(Installed.(operation := true), SavingOperation, ForStart))

  lemma {:induction false} LeaseGranted()
    ensures Run(NewWorker, [BeginStart(true), AcquireReturned(true), Saved(true)]) == WithLease
  {
    RunThree(NewWorker, BeginStart(true), AcquireReturned(true), Saved(true));
  }

  lemma {:induction false} WorkerStarted()
    ensures Run(WithLease, [InstallReturned(true), Saved(true), StartReturned(true)]) == WithOperation
  {
    RunThree(WithLease, InstallReturned(true), Saved(true), StartReturned(true));
  }

  lemma {:induction false} CancelAnswered()
    ensures var w := Run(WithOperation, [Saved(true), BeginCancel, ReleaseReturned(TerminalState)]);
            && w.terminal && w.trace == [AcquireLease, StartWorker, ReleaseLease]
            && w.call.InCall? && w.call.stage.SavingRelease? && w.call.purpose.ForCancel?
  {
    RunThree(WithOperation, Saved(true), BeginCancel, ReleaseReturned(TerminalState));
  }

  /**
   * What a caller is told is what the receipt says: an exit code only with a saved
   * release, cleanup confirmed if and only if the release is saved, and a start failure
   * is LOST if and only if it is not; a saved release follows a terminal lease state.
   */
  lemma {:induction false} ReportsAreTrue(events: seq<WorkerEvent>)
    ensures var w := Run(NewWorker, events);
            && (IsReleased(w) ==> w.terminal)
            && (w.out.ExitCode? ==> IsReleased(w) && StartedTrace(w.trace))
            && (w.out.CancelOutcome? ==> (w.out.confirmed <==> IsReleased(w)))
            && (w.out.StartError? ==> (w.out.lost <==> !IsReleased(w)))
            && (w.out.HandleReturned? ==> Operating(w) && StartedTrace(w.trace))
  {
    RunKeeps(NewWorker, events);
  }

  // ----- Exit codes -----

  /** The exit code the last poll that began stands for, by what it sighted. */
  function PolledCode(w: Worker, events: seq<WorkerEvent>): Option<int> {
    if events == [] then None
    else
      var before, e := events[..|events| - 1], events[|events| - 1];
      var v := Run(w, before);
      if !e.BeginPoll? || v.call.InCall? || !v.handle || v.durable.None? then PolledCode(w, before)
      else match e.sighting
        case Completed(code) => Some(code)
        case BadCompletion => None
        case Stale => Some(1)
        case Alive => if v.durable.value.renewalFailed then Some(1) else None
  }

  /** A poll under way, and an exit code handed out since, are those of that poll. */
  predicate CodeFits(w: Worker, code: Option<int>) {
    && (w.call.NoCall? && w.out.ExitCode? ==> code == Some(w.out.code))
    && (w.call.InCall? && w.call.purpose.ForPoll? ==> code == Some(w.call.purpose.code))
  }

  lemma PollBeginsFits(w: Worker, sighting: Sighting)
    requires w.call.NoCall? && w.handle && w.durable.Some?
    ensures CodeFits(Step(w, BeginPoll(sighting)),
                     match sighting
                     case Completed(code) => Some(code)
                     case BadCompletion => None
                     case Stale => Some(1)
                     case Alive => if w.durable.value.renewalFailed then Some(1) else None)
  {
  }

  lemma CodeStays(w: Worker, e: WorkerEvent, code: Option<int>)
    requires CodeFits(w, code) && WorkerInv(w)
    requires !e.BeginPoll? || w.call.InCall? || !w.handle || w.durable.None?
    ensures CodeFits(Step(w, e), code)
  {
    hide OutOk, Operating, IsReleased, Renewable;
  }

  /**
   * An exit code is never made up: however the events of a worker interleave, what a poll
   * hands out is the code of the completion that this very poll sighted, or 1 when it
   * sighted a stale heartbeat or a failed renewal.
   */
  lemma {:induction false} ExitCodeIsSighted(events: seq<WorkerEvent>)
    ensures CodeFits(Run(NewWorker, events), PolledCode(NewWorker, events))
    ensures Run(NewWorker, events).call.NoCall? && Run(NewWorker, events).out.ExitCode? ==>
              PolledCode(NewWorker, events) == Some(Run(NewWorker, events).out.code)
  {
    if events != [] {
      var before, e := events[..|events| - 1], events[|events| - 1];
      ExitCodeIsSighted(before);
      RunKeeps(NewWorker, before);
      var v := Run(NewWorker, before);
      hide CodeFits, WorkerInv, Step;
      if !e.BeginPoll? || v.call.InCall? || !v.handle || v.durable.None? {
        CodeStays(v, e, PolledCode(NewWorker, before));
      } else {
        PollBeginsFits(v, e.sighting);
      }
    }
    assert CodeFits(Run(NewWorker, events), PolledCode(NewWorker, events));
  }

  // ----- The executor object -----

  /** How the environment answers one start, in order. */
  datatype StartAnswers = StartAnswers(
    firstSave: bool, acquire: bool, leaseSave: bool, install: bool, installSave: bool,
    start: bool, operationSave: bool, release: ReleaseReply, releaseSave: bool)

  function StartScript(a: StartAnswers): seq<WorkerEvent> {
    [BeginStart(a.firstSave), AcquireReturned(a.acquire), Saved(a.leaseSave)]
    + [InstallReturned(a.install), Saved(a.installSave), StartReturned(a.start)]
    + [Saved(a.operationSave), ReleaseReturned(a.release), Saved(a.releaseSave)]
  }

  function PollScript(sighting: Sighting, reply: ReleaseReply, saved: bool): seq<WorkerEvent> {
    [BeginPoll(sighting), ReleaseReturned(reply), Saved(saved)]
  }

  function CancelScript(reply: ReleaseReply, saved: bool): seq<WorkerEvent> {
    [BeginCancel, ReleaseReturned(reply), Saved(saved)]
  }

  /** Whether the receipt file can be read, the lease renewed, and the receipt saved. */
  datatype RenewAnswer = RenewAnswer(readable: bool, ok: bool, saved: bool)

  function RenewScript(a: RenewAnswer): seq<WorkerEvent> {
    [BeginRenewal, RenewReturned(a.ok), Saved(a.saved)]
  }

  /** An unreadable receipt is left as it is. */
  function Renewed(w: Worker, a: RenewAnswer): Worker {
    if a.readable then Run(w, RenewScript(a)) else w
  }

  /** A receipt file that cannot be read, or saved once renewed, ends the renewal thread. */
  predicate EndsRenewal(w: Worker, a: RenewAnswer) {
    w.durable.Some? && (!a.readable || (Renewable(w) && !a.saved))
  }

  /** How many receipts one pass of the renewal loop comes to. */
  function Reached(workers: seq<Worker>, answers: seq<RenewAnswer>): (n: nat)
    requires |workers| == |answers|
    ensures n <= |workers|
  {
    if workers == [] then 0
    else if EndsRenewal(workers[0], answers[0]) then 1
    else 1 + Reached(workers[1..], answers[1..])
  }

  /** The pass stops behind the first receipt that cannot be read or saved. */
  lemma {:induction false} ReachedIs(workers: seq<Worker>, answers: seq<RenewAnswer>, n: nat)
    requires |workers| == |answers| && n <= |workers|
    requires forall i | 0 <= i < n - 1 :: !EndsRenewal(workers[i], answers[i])
    requires n == |workers| || (n > 0 && EndsRenewal(workers[n - 1], answers[n - 1]))
    ensures Reached(workers, answers) == n
  {
    if workers != [] && !EndsRenewal(workers[0], answers[0]) {
      ReachedIs(workers[1..], answers[1..], n - 1);
    }
  }

  lemma {:induction false} RunJoins(w: Worker, a: seq<WorkerEvent>, b: seq<WorkerEvent>)
    ensures Run(w, a + b) == Run(Run(w, a), b)
  {
    if b == [] {
      assert a + b == a;
    } else {
      assert (a + b)[..|a + b| - 1] == a + b[..|b| - 1];
      RunJoins(w, a, b[..|b| - 1]);
    }
  }

  function Acquired(w: Worker, a: StartAnswers): Worker {
    Step(Step(Step(w, BeginStart(a.firstSave)), AcquireReturned(a.acquire)), Saved(a.leaseSave))
  }

  function Launched(w: Worker, a: StartAnswers): Worker {
    Step(Step(Step(Step(w, InstallReturned(a.install)), Saved(a.installSave)), StartReturned(a.start)), Saved(a.operationSave))
  }

  lemma RunStart(w: Worker, a: StartAnswers)
    ensures Run(w, StartScript(a)) ==
            Step(Step(Launched(Acquired(w, a), a), ReleaseReturned(a.release)), Saved(a.releaseSave))
  {
    var first := [BeginStart(a.firstSave), AcquireReturned(a.acquire), Saved(a.leaseSave)];
    var second := [InstallReturned(a.install), Saved(a.installSave), StartReturned(a.start)];
    var third := [Saved(a.operationSave), ReleaseReturned(a.release), Saved(a.releaseSave)];
    RunJoins(w, first + second, third);
    RunJoins(w, first, second);
    RunThree(w, first[0], first[1], first[2]);
    RunThree(Run(w, first), second[0], second[1], second[2]);
    RunThree(Run(Run(w, first), second), third[0], third[1], third[2]);
  }

  const LeasedReceipt := Receipt(true, false, false, false, false)

  /** Answers that come while no call waits for them change nothing. */
  lemma LaunchIgnored(w: Worker, a: StartAnswers)
    requires w.call.NoCall? || w.call.stage.Releasing?
    ensures Launched(w, a) == w
  {
    assert Step(w, InstallReturned(a.install)) == w;
    assert Step(w, Saved(a.installSave)) == w;
    assert Step(w, StartReturned(a.start)) == w;
    assert Step(w, Saved(a.operationSave)) == w;
  }

  /** What the first three answers of a start leave. */
  lemma AcquireCases(w: Worker, a: StartAnswers)
    requires w.durable.None? && w.call.NoCall?
    ensures !a.firstSave ==> Acquired(w, a) == w
    ensures a.firstSave && !a.acquire ==>
              Acquired(w, a) ==
              w.(durable := Some(EmptyReceipt), trace := w.trace + [AcquireLease], out := StartError(true))
    ensures a.firstSave && a.acquire && !a.leaseSave ==>
              Acquired(w, a) ==
              Release(w.(durable := Some(EmptyReceipt), trace := w.trace + [AcquireLease]), LeasedReceipt, ForStart)
    ensures a.firstSave && a.acquire && a.leaseSave ==>
              Acquired(w, a) ==
              w.(durable := Some(LeasedReceipt), trace := w.trace + [AcquireLease],
                 call := InCall(LeasedReceipt, Installing, ForStart))
  {
    var v := Step(w, BeginStart(a.firstSave));
    if !a.firstSave {
      assert v == w && Step(w, AcquireReturned(a.acquire)) == w && Step(w, Saved(a.leaseSave)) == w;
    } else {
      assert v == w.(durable := Some(EmptyReceipt), trace := w.trace + [AcquireLease],
                     call := InCall(EmptyReceipt, Acquiring, ForStart));
      var u := Step(v, AcquireReturned(a.acquire));
      if a.acquire {
        assert u == v.(call := InCall(LeasedReceipt, SavingLease, ForStart));
      } else {
        assert u == Finish(v, StartError(true));
      }
    }
  }

  /** What the answers of a release leave. */
  lemma ReleaseCases(w: Worker, mem: Receipt, purpose: Purpose, reply: ReleaseReply, saved: bool)
    requires w.call.NoCall?
    ensures var asked := w.(trace := w.trace + [ReleaseLease]);
            Step(Step(Release(w, mem, purpose), ReleaseReturned(reply)), Saved(saved)) ==
            if mem.released then Finish(w, Confirmation(purpose))
            else if !reply.TerminalState? then Finish(asked, Unconfirmed(purpose))
            else if saved then Finish(asked.(durable := Some(mem.(released := true)), terminal := true), Confirmation(purpose))
            else Finish(asked.(terminal := true), SaveError(purpose))
  {
    var v := Release(w, mem, purpose);
    var u := Step(v, ReleaseReturned(reply));
    if mem.released || !reply.TerminalState? {
      assert u.call.NoCall?;
    } else {
      assert u == v.(call := InCall(mem.(released := true), SavingRelease, purpose), terminal := true);
    }
  }

  /** What the answers of an installation and a start leave, under a saved lease. */
  lemma LaunchCases(w: Worker, a: StartAnswers, leased: Receipt)
    requires w.call == InCall(leased, Installing, ForStart) && w.durable == Some(leased) && !leased.released
    ensures var installed := leased.(installed := true);
            var started := w.(durable := Some(installed), trace := w.trace + [StartWorker]);
            Launched(w, a) ==
            if !a.install then Release(w, leased, ForStart)
            else if !a.installSave then Release(w, installed, ForStart)
            else if !a.start then Release(started, installed, ForStart)
            else if !a.operationSave then Release(started, installed.(operation := true), ForStart)
            else Finish(started.(durable := Some(installed.(operation := true)), handle := true), HandleReturned)
  {
    var v1 := Step(w, InstallReturned(a.install));
    var v2 := Step(v1, Saved(a.installSave));
    var v3 := Step(v2, StartReturned(a.start));
    if !a.install {
      assert v2 == v1 && v3 == v1;
    } else if !a.installSave {
      assert v3 == v2;
    }
  }

  /** The RPCs one start issues. */
  function StartRpcs(a: StartAnswers): seq<Rpc> {
    if !a.firstSave then []
    else if !a.acquire then [AcquireLease]
    else if !a.leaseSave || !a.install || !a.installSave then [AcquireLease, ReleaseLease]
    else if !a.start || !a.operationSave then [AcquireLease, StartWorker, ReleaseLease]
    else [AcquireLease, StartWorker]
  }

  /** Every answer of a start is good. */
  predicate AllGood(a: StartAnswers) {
    a.firstSave && a.acquire && a.leaseSave && a.install && a.installSave && a.start && a.operationSave
  }

  /** What the last answers of a failed start leave. */
  lemma GivenBack(w: Worker, mem: Receipt, a: StartAnswers)
    requires w.call.NoCall? && w.durable.Some? && !w.durable.value.released && !mem.released
    ensures var v := Step(Step(Release(w, mem, ForStart), ReleaseReturned(a.release)), Saved(a.releaseSave));
            var done := a.release.TerminalState? && a.releaseSave;
            && v.out == StartError(!done) && v.call.NoCall? && v.handle == w.handle && v.trace == w.trace + [ReleaseLease]
            && v.durable.Some? && (v.durable.value.released <==> done)
  {
    ReleaseCases(w, mem, ForStart, a.release, a.releaseSave);
    hide Step, Release;
  }

  /** Without a call, the answers of a release change nothing. */
  lemma NotGivenBack(w: Worker, a: StartAnswers)
    requires w.call.NoCall?
    ensures Step(Step(w, ReleaseReturned(a.release)), Saved(a.releaseSave)) == w
  {
    assert Step(w, ReleaseReturned(a.release)) == w;
  }

  /** The receipt in memory when a start under a saved lease fails, and the worker then. */
  lemma LaunchFails(w: Worker, a: StartAnswers, leased: Receipt) returns (v: Worker, mem: Receipt)
    requires w.call == InCall(leased, Installing, ForStart) && w.durable == Some(leased) && !leased.released
    requires !(a.install && a.installSave && a.start && a.operationSave)
    ensures Launched(w, a) == Release(v, mem, ForStart) == Release(v.(call := NoCall), mem, ForStart)
    ensures v.durable.Some? && !v.durable.value.released && !mem.released && v.handle == w.handle
    ensures v.trace == if a.install && a.installSave then w.trace + [StartWorker] else w.trace
  {
    LaunchCases(w, a, leased);
    hide Launched;
    var installed := leased.(installed := true);
    if !a.install { v, mem := w, leased; }
    else if !a.installSave { v, mem := w, installed; }
    else {
      v := w.(durable := Some(installed), trace := w.trace + [StartWorker]);
      mem := if a.start then installed.(operation := true) else installed;
    }
  }

  lemma AcquiredTells(w: Worker, a: StartAnswers)
    requires w.durable.None? && w.call.NoCall? && !w.handle && w.trace == []
    requires !a.firstSave || !a.acquire || !a.leaseSave
    ensures StartTold(w, Run(w, StartScript(a)), a)
  {
    RunStart(w, a);
    AcquireCases(w, a);
    LaunchIgnored(Acquired(w, a), a);
    hide Launched, Acquired, Step, Release;
    if a.firstSave && a.acquire {
      GivenBack(w.(durable := Some(EmptyReceipt), trace := w.trace + [AcquireLease]), LeasedReceipt, a);
    } else {
      NotGivenBack(Acquired(w, a), a);
    }
  }

  lemma LaunchedTells(w: Worker, a: StartAnswers)
    requires w.durable.None? && w.call.NoCall? && !w.handle && w.trace == []
    requires a.firstSave && a.acquire && a.leaseSave
    ensures StartTold(w, Run(w, StartScript(a)), a)
  {
    RunStart(w, a);
    AcquireCases(w, a);
    var held := Acquired(w, a);
    hide Acquired, Step, Release;
    if AllGood(a) {
      LaunchCases(held, a, LeasedReceipt);
      hide Launched;
      NotGivenBack(Launched(held, a), a);
    } else {
      hide Launched;
      var v, mem := LaunchFails(held, a, LeasedReceipt);
      GivenBack(v.(call := NoCall), mem, a);
    }
  }

  /** v is a new worker w after a start was answered so. */
  predicate StartTold(w: Worker, v: Worker, a: StartAnswers) {
    && v.call.NoCall? && (v.handle <==> AllGood(a)) && v.trace == StartRpcs(a)
    && (!a.firstSave ==> v == w)
    && (AllGood(a) ==> v.out == HandleReturned && v.durable == Some(Receipt(true, true, true, false, false)))
    && (a.firstSave && !AllGood(a) ==>
          && v.out == StartError(!(a.acquire && a.release.TerminalState? && a.releaseSave))
          && v.durable.Some? && (v.durable.value.released <==> v.out == StartError(false)))
  }

  /**
   * What a start comes to, answer by answer: nothing before its first save; the handle
   * exactly when every answer is good; otherwise a failure that is LOST unless a lease was
   * acquired and its release saved. Its RPCs stop at the first bad answer, and a lease that
   * was acquired is then given back.
   */
  lemma StartTells(w: Worker, a: StartAnswers)
    requires w.durable.None? && w.call.NoCall? && !w.handle && w.trace == []
    ensures StartTold(w, Run(w, StartScript(a)), a)
  {
    hide StartTold, StartScript;
    if a.firstSave && a.acquire && a.leaseSave {
      LaunchedTells(w, a);
    } else {
      AcquiredTells(w, a);
    }
  }

  /** The worker's receipt file, its handle, and the history of its RPCs. */
  class KernelTrainingExecutor {
    var receipt: Option<Receipt>
    var handle: bool
    ghost var trace: seq<Rpc>
    ghost var terminal: bool

    ghost function View(out: Outcome): Worker
      reads this
    {
      Worker(receipt, NoCall, handle, out, trace, terminal)
    }

    constructor ()
      ensures View(Nothing) == NewWorker
    {
      receipt, handle, trace, terminal := None, false, [], false;
    }

    method Call(rpc: Rpc)
      modifies this`trace
      ensures trace == old(trace) + [rpc]
    {
      trace := trace + [rpc];
    }

    /** Save the copy in memory over the file, or raise and leave the file. */
    method Save(mem: Receipt, ok: bool)
      modifies this`receipt
      ensures receipt == if ok then Some(mem) else old(receipt)
    {
      if ok { receipt := Some(mem); }
    }

    /**
     * Give the lease back unless the receipt says so already. Each caller learns whether the
     * release is saved: a start was lost if it is not, a poll hands out its exit code only
     * if it is, and a cancellation is confirmed, refused, or raises while saving.
     */
    method ReleaseReceipt(mem: Receipt, purpose: Purpose, reply: ReleaseReply, saved: bool) returns (out: Outcome)
      modifies this`receipt, this`trace, this`terminal
      ensures View(out).(call := NoCall) ==
              Step(Step(Release(old(View(Nothing)), mem, purpose), ReleaseReturned(reply)), Saved(saved))
      ensures trace == if mem.released then old(trace) else old(trace) + [ReleaseLease]
      ensures receipt == if !mem.released && reply.TerminalState? && saved then Some(mem.(released := true)) else old(receipt)
      ensures var done := mem.released || (reply.TerminalState? && saved);
              out == match purpose
                     case ForStart => StartError(!done)
                     case ForPoll(code) => if done then ExitCode(code) else PollError
                     case ForCancel => if done then CancelOutcome(true) else if reply.TerminalState? then CancelError else CancelOutcome(false)
                     case ForRenewal => Nothing
    {
      ReleaseCases(View(Nothing), mem, purpose, reply, saved);
      hide Step, Release;
      if mem.released {
        return Confirmation(purpose);
      }
      Call(ReleaseLease);
      if !reply.TerminalState? {
        return Unconfirmed(purpose);
      }
      terminal := true;
      Save(mem.(released := true), saved);
      return if saved then Confirmation(purpose) else SaveError(purpose);
    }

    /**
     * A poll that sights a completion, a stale heartbeat or a failed renewal releases the
     * lease first. Then it hands out the sighted completion's own exit code, and 1 for a
     * worker without one.
     */
    method Poll(sighting: Sighting, reply: ReleaseReply, saved: bool) returns (out: Outcome)
      requires handle && receipt.Some?
      modifies this`receipt, this`trace, this`terminal
      ensures View(out) == Run(old(View(Nothing)), PollScript(sighting, reply, saved))
      ensures var was := old(receipt).value;
              var ended := sighting.Completed? || sighting.Stale? || (sighting.Alive? && was.renewalFailed);
              && (out.ExitCode? <==> ended && (was.released || (reply.TerminalState? && saved)))
              && (out.ExitCode? && sighting.Completed? ==> out.code == sighting.code)
              && (out.ExitCode? && !sighting.Completed? ==> out.code == 1)
              && (out.StillRunning? <==> sighting.Alive? && !was.renewalFailed)
              && (out.PollError? <==> !out.ExitCode? && !out.StillRunning?)
              && trace == (if ended && !was.released then old(trace) + [ReleaseLease] else old(trace))
              && receipt == (if ended && !was.released && reply.TerminalState? && saved then Some(was.(released := true)) else old(receipt))
    {
      RunThree(View(Nothing), BeginPoll(sighting), ReleaseReturned(reply), Saved(saved));
      var mem := receipt.value;
      match sighting {
        case Completed(code) => out := ReleaseReceipt(mem, ForPoll(code), reply, saved);
        case BadCompletion => out := PollError;
        case Stale => out := ReleaseReceipt(mem, ForPoll(1), reply, saved);
        case Alive =>
          if mem.renewalFailed {
            out := ReleaseReceipt(mem, ForPoll(1), reply, saved);
          } else {
            out := StillRunning;
          }
      }
    }

    /** A cancellation is confirmed exactly by a saved release, and refused by a lease that stays. */
    method Cancel(reply: ReleaseReply, saved: bool) returns (out: Outcome)
      requires handle && receipt.Some?
      modifies this`receipt, this`trace, this`terminal
      ensures View(out) == Run(old(View(Nothing)), CancelScript(reply, saved))
      ensures var was := old(receipt).value;
              && (out == CancelOutcome(true) <==> was.released || (reply.TerminalState? && saved))
              && (out == CancelOutcome(false) <==> !was.released && !reply.TerminalState?)
              && (out.CancelError? <==> !was.released && reply.TerminalState? && !saved)
              && trace == (if was.released then old(trace) else old(trace) + [ReleaseLease])
              && receipt == (if !was.released && reply.TerminalState? && saved then Some(was.(released := true)) else old(receipt))
    {
      RunThree(View(Nothing), BeginCancel, ReleaseReturned(reply), Saved(saved));
      out := ReleaseReceipt(receipt.value, ForCancel, reply, saved);
    }

    /** Renew the lease of this receipt; alive is false when the file cannot be read or saved. */
    method Renew(a: RenewAnswer) returns (alive: bool)
      modifies this`receipt, this`trace
      ensures View(Nothing) == Renewed(old(View(Nothing)), a)
      ensures alive == !EndsRenewal(old(View(Nothing)), a)
      ensures old(receipt).None? ==> alive && receipt == None && trace == old(trace)
      ensures old(receipt).Some? ==>
                var was := old(receipt).value;
                var due := a.readable && was.lease && was.operation && !was.released;
                && trace == (if due then old(trace) + [RenewLease] else old(trace))
                && receipt == Some(if due && !a.ok && a.saved then was.(renewalFailed := true) else was)
                && (alive <==> a.readable && (due ==> a.saved))
    {
      RunThree(View(Nothing), BeginRenewal, RenewReturned(a.ok), Saved(a.saved));
      if receipt.Some? && !a.readable {
        return false;
      }
      if receipt.None? || receipt.value.released || !receipt.value.lease || !receipt.value.operation {
        return true;
      }
      var mem := receipt.value;
      Call(RenewLease);
      if !a.ok {
        mem := mem.(renewalFailed := true);
      }
      Save(mem, a.saved);
      return a.saved;
    }

    /** Install and start under a saved lease, saving after each. */
    method InstallAndStart(a: StartAnswers, leased: Receipt) returns (mem: Receipt, ok: bool)
      requires receipt == Some(leased) && !leased.released && !handle
      modifies this
      ensures !mem.released
      ensures var v := Launched(old(View(Nothing)).(call := InCall(leased, Installing, ForStart)), a);
              v == if ok then View(HandleReturned) else Release(View(Nothing), mem, ForStart)
    {
      LaunchCases(View(Nothing).(call := InCall(leased, Installing, ForStart)), a, leased);
      hide Launched;
      mem := leased;
      if !a.install {
        return mem, false;
      }
      mem := mem.(installed := true);
      Save(mem, a.installSave);
      if !a.installSave {
        return mem, false;
      }
      Call(StartWorker);
      if !a.start {
        return mem, false;
      }
      mem := mem.(operation := true);
      Save(mem, a.operationSave);
      handle := a.operationSave;
      return mem, a.operationSave;
    }

    /** Acquire, install and start, saving after each; any failure gives the lease back. */
    method Start(a: StartAnswers) returns (out: Outcome)
      requires receipt.None? && !handle
      modifies this
      ensures View(out) == Run(old(View(Nothing)), StartScript(a))
    {
      ghost var w := View(Nothing);
      RunStart(w, a);
      AcquireCases(w, a);
      if !a.firstSave || !a.acquire || !a.leaseSave {
        LaunchIgnored(Acquired(w, a), a);
      }
      if !a.firstSave {
        return Nothing;
      }
      var mem := EmptyReceipt;
      Save(mem, true);
      Call(AcquireLease);
      if !a.acquire {
        return StartError(true);
      }
      mem := mem.(lease := true);
      Save(mem, a.leaseSave);
      if !a.leaseSave {
        out := ReleaseReceipt(mem, ForStart, a.release, a.releaseSave);
        return;
      }
      var ok;
      mem, ok := InstallAndStart(a, mem);
      if ok {
        return HandleReturned;
      }
      out := ReleaseReceipt(mem, ForStart, a.release, a.releaseSave);
    }
  }

  /** The worker values of some executors. */
  ghost function Views(executors: seq<KernelTrainingExecutor>): seq<Worker>
    reads executors
  {
    seq(|executors|, i requires 0 <= i < |executors| reads executors => executors[i].View(Nothing))
  }

  /** One pass of the renewal loop over the receipt directory. */
  method RenewAll(executors: seq<KernelTrainingExecutor>, answers: seq<RenewAnswer>) returns (alive: bool)
    requires |answers| == |executors|
    requires forall i, j | 0 <= i < j < |executors| :: executors[i] != executors[j]
    modifies executors
    ensures var was, n := old(Views(executors)), Reached(old(Views(executors)), answers);
            && (forall i | 0 <= i < n :: executors[i].View(Nothing) == Renewed(was[i], answers[i]))
            && (forall i | n <= i < |executors| :: executors[i].View(Nothing) == was[i])
            && (alive <==> forall i | 0 <= i < |executors| :: !EndsRenewal(was[i], answers[i]))
  {
    hide Renewed, EndsRenewal, Reached;
    ghost var was := Views(executors);
    alive := true;
    var i := 0;
    while alive && i < |executors|
      invariant 0 <= i <= |executors|
      invariant forall j | 0 <= j < i :: executors[j].View(Nothing) == Renewed(was[j], answers[j])
      invariant forall j | i <= j < |executors| :: executors[j].View(Nothing) == was[j]
      invariant forall j | 0 <= j < i - 1 :: !EndsRenewal(was[j], answers[j])
      invariant i > 0 ==> alive == !EndsRenewal(was[i - 1], answers[i - 1])
      invariant i == 0 ==> alive
      decreases |executors| - i
    {
      alive := executors[i].Renew(answers[i]);
      i := i + 1;
    }
    ReachedIs(was, answers, i);
  }
}
