# Training lifecycle: a verified model

This project models the crash-tolerant core of the Yield training service and proves what
it keeps over every run. `dafny verify dfyconfig.toml` checks all of it.

A product run is a durable record that changes only through a compare-and-set on its
generation. A pure reconciler picks one next action for it; a control plane turns actions
into calls of a training runtime; the runtime's sessions call one Kernel worker per
attempt, and an end is reported only after the Kernel lease is released. The model follows
these layers:

| files | what they hold |
|---|---|
| `Plans`, `PlanLaws` | execution plans, their validation and the scheduling loop; the order and each refusal pinned down |
| `Lifecycle`, `LifecycleInvariant`, `LifecycleTheorems`, `Progress`, `Transitions` | records, the reconciler, each operation as a decision over one loaded record, the reachable-run invariant, what holds over whole runs, exactly when a run waits, and what each operation writes or raises |
| `Store`, `Interleaving` | the store and the application service as objects; any number of controllers interleaving load, decide and compare-and-set |
| `Driver`, `Quarantine`, `LateConfirmation`, `ControlPlane`, `Calls` | control-plane calls as a step system with racing threads and crashes; quarantine; a cancellation confirmed too late; the control plane as an object over the application service whose calls are runs of that system; what each call records for each answer |
| `Runtime`, `Kernel`, `EndToEnd`, `EarnedSuccess` | training sessions; the lease protocol with a crash between any RPC and any save; the three layers together; what lies behind a recorded success |
| `Journal`, `BindingOwner`, `BindingCalls` | the write-ahead journal of package bindings, concurrent activate and reconcile calls over it, and what undisturbed calls come to |
| `Events`, `Checkpoints`, `Weights` | the durable event log with harvest and paging, checkpoint retention, the safetensors header check |
| `ModelVersion`, `ModelIdentity`, `ModelPayloads` | the content-addressed model descriptor, its round trips, and what every accepted payload holds |

Sequential code is a class or a method proved against a function on values; protocols are
step functions folded over a sequence of events, so a theorem about the fold is a theorem
about every run. An event that is out of place leaves the state as it is.

## What the model assumes

- Instants come from a strictly increasing logical clock. This is what makes observing a
  terminal attempt again fail.
- A compare-and-set, a create-or-get and each SQLite transaction are atomic; anything may
  interleave or crash between them. A compare-and-set that finds its generation moved
  raises: `Interleaving` has it as a step and the driver's `Raised` event covers it. The
  objects in `Store` and `ControlPlane` state what one undisturbed call returns or raises.
- The product configuration: the tiny dry run is an engine step
  (`durable_tiny_attempt=True`), sessions are named after their attempt, and the engine's
  answers are arbitrary.
- One process owns the Kernel state directory (`product_api.py:116-119` takes an exclusive
  file lock). `EndToEnd` lets one engine call per attempt be in flight at a time, which the
  service lock grants (`product_service.py:1145`). `Driver` and `Quarantine` do not use
  that: their threads race freely.
- `cyrene_runtime_maintenance` is not part of this model. The runtime client is taken to
  call back for the intent, send at most one Activate, and then hand over the outcome.
- A digest is any function from payloads to 64 hexadecimal digits. `IdNamesContent` assumes
  that it does not collide on the two payloads at hand; key order is not a collision.

## What turned out differently

Where a claim of the code or of its comments does not hold as stated, the project gives an
input on which it fails and the exact condition under which it holds.

- **A terminal run can hold an active attempt.** `resume_attempt` accepts any step, so a
  resume past a blocked step reaches a run finalised as BLOCKED while its attempt is
  pending; the attempt's outcome is then written into the terminal record
  (`BlockedRunCanHoldActiveAttempt`, `FinalizesOverActiveIff`, `TerminalRunWritesIff`).
- **Quarantine holds only without calls in flight.** A thread that made the attempt before
  it was quarantined can still launch it and report; a resume then passes the attempt
  although its cleanup was never confirmed (`QuarantineCanFail`). It holds exactly when no
  such call can deliver (`QuarantineHoldsIff`), and always with serial calls
  (`SerialQuarantineHolds`).
- **Overlapping harvests duplicate events.** The comment on `append_events` says that
  re-reading cannot duplicate; the harvest reads the count before it appends, without a
  lock around both (`OverlapDuplicates`, `OverlapIsFaithfulIff`).
- **A confirmed release can be requested twice.** A crash between the Kernel's terminal
  reply and the saved receipt repeats the release (`TerminalReplyCanRepeat`, a run from a
  new worker); silence begins exactly with the save (`SilentIffSaved`).
- **A rejected submission disagrees with its derived status.** A session refused before its
  first attempt shows FAILED while its run derives QUEUED (`RuntimeAgreementIff`).
- **A run can wait with nothing to wait for.** A CANCELLED observation while the run is
  active lets the run go on with other steps and then leaves it idle
  (`CancelledStepIdles`). `WaitsIff` gives the exact condition for every run, resume and
  cancellation included. An idle run stays as it is until a request to cancel it; once
  cancellation is desired it waits for good and accepts no resume (`OnlyCancelMovesIdle`,
  `IdleStays`).
- **A confirmed cancellation can come too late.** A poll in flight across a cancellation
  can store a plain CANCELLED before the confirmed one, which is then refused, and the run
  is stopped for good (`ConfirmationCanComeTooLate`, `StoppedForever`). The confirmation is
  stored exactly while its attempt is the active last one (`ConfirmationStoredIff`).

## Model

| member | source | states |
|---|---|---|
| Plans.OrderedStepsCorrect | training/core/src/cy_exec/training/lifecycle/contracts.py:282-304 | for unique ids and known dependencies the order fails exactly when the dependency relation has a cycle, and otherwise is a permutation of the steps with every dependency first |
| Plans.OrderedSteps | training/core/src/cy_exec/training/lifecycle/contracts.py:282-304 | the scheduling loop terminates and returns that order, or reports a cycle |
| Plans.PlaceReady | training/core/src/cy_exec/training/lifecycle/contracts.py:296-303 | one round moves exactly the ready steps from remaining to completed and to the end of the order |
| Plans.PlanAcceptedIff | training/core/src/cy_exec/training/lifecycle/contracts.py:132-255 | a plan object is built exactly for a non-empty id and steps with names, capabilities and retry bounds of at least one, unique identities and known, acyclic dependencies, and is then the valid plan of those steps |
| Plans.FindStepCorrect | training/core/src/cy_exec/training/lifecycle/contracts.py:306-310 | step lookup finds a declared step with that id, or none is declared |
| PlanLaws.OrderIsCanonical | training/core/src/cy_exec/training/lifecycle/contracts.py:282-304 | the order is the only one of its kind: steps come by the length of their longest dependency chain, and within one length as declared |
| PlanLaws.RefusedFor | training/core/src/cy_exec/training/lifecycle/contracts.py:132-255 | a plan is refused for what is first wrong with its first unsound step, else for an empty id, else for a repeated identity, else for a dependency on no step, else for a cycle |
| LifecycleInvariant.ReachableInv | training/core/src/cy_exec/training/lifecycle/reconciler.py:188-289 | every record reachable by any operations, resume included, has attempts numbered 1..n, only the last one possibly active, step statuses mirroring the last attempt of each step, and a run status that its attempts justify |
| LifecycleInvariant.DecideKeeps | training/core/src/cy_exec/training/lifecycle/reconciler.py:188-289 | each operation's write keeps that invariant |
| LifecycleInvariant.AppendShape | training/core/src/cy_exec/training/lifecycle/contracts.py:466-473 | appending to a nonterminal run always goes through, with the next number and an unused id |
| LifecycleInvariant.ResumeShape | training/core/src/cy_exec/training/lifecycle/reconciler.py:204-232 | a resume that goes through appends one attempt of the named step, whatever its dependencies, and reactivates the run |
| LifecycleInvariant.ObserveWritesIff | training/core/src/cy_exec/training/lifecycle/reconciler.py:234-268 | an observation writes exactly when it names the last, still active attempt of a record it may still change, and then replaces only that attempt, its step status and the forced run status |
| LifecycleInvariant.ObserveOther | training/core/src/cy_exec/training/lifecycle/contracts.py:351-374 | observing a terminal or unknown attempt never writes, because each observation carries a new instant |
| LifecycleInvariant.RunnableCorrect | training/core/src/cy_exec/training/lifecycle/reconciler.py:137-148 | the step chosen to run is declared, pending and has its dependencies as required |
| LifecycleInvariant.TerminalKeeps | training/core/src/cy_exec/training/lifecycle/reconciler.py:277-289 | a finalisation changes the run status only, to one its attempts justify |
| LifecycleTheorems.HistoryNeverRejected | training/core/src/cy_exec/training/lifecycle/store.py:161-175 | the store's history check accepts every record the control plane hands it |
| LifecycleTheorems.TerminalAttemptForever | training/core/src/cy_exec/training/lifecycle/contracts.py:475-484 | once terminal, an attempt is the same record after every later operation |
| LifecycleTheorems.SuccessIsEarned | training/core/src/cy_exec/training/lifecycle/reconciler.py:125-135 | a run is SUCCEEDED only when every plan step's last attempt succeeded and nothing is active |
| LifecycleTheorems.SuccessIsFinal | training/core/src/cy_exec/training/lifecycle/reconciler.py:277-289 | after SUCCEEDED no operation changes the record, its generation included |
| LifecycleTheorems.CancelledIsStopped | training/core/src/cy_exec/training/lifecycle/reconciler.py:70-91 | a run is CANCELLED only with no active attempt, and a cancelled last attempt has cleanup confirmed |
| LifecycleTheorems.TerminalRunWritesIff | training/core/src/cy_exec/training/lifecycle/contracts.py:491-499 | a terminal run is written exactly by a resume of a FAILED or CANCELLED run, or by an observation of the attempt a BLOCKED run left active |
| LifecycleTheorems.FinalizesOverActiveIff | training/core/src/cy_exec/training/lifecycle/reconciler.py:92-102 | a run is finalised over an active attempt exactly when it is not cancelled and some step's last attempt is blocked |
| LifecycleTheorems.BlockedRunCanHoldActiveAttempt | training/core/src/cy_exec/training/lifecycle/reconciler.py:204-232 | a concrete run: a resume past a blocked step ends BLOCKED with a pending attempt, whose success is then written into the terminal record |
| LifecycleTheorems.DependencyOrder | training/core/src/cy_exec/training/lifecycle/reconciler.py:137-148 | in runs without resume, every attempt of a step comes after the success of each of its dependencies |
| LifecycleTheorems.ResumeFreeTerminalIsIdle | training/core/src/cy_exec/training/lifecycle/reconciler.py:92-135 | in runs without resume, a terminal run never holds an active attempt |
| LifecycleTheorems.StartHasCapacity | training/core/src/cy_exec/training/lifecycle/contracts.py:136-143 | an automatic start always has room in the step's retry policy |
| LifecycleTheorems.RetryBound | training/core/src/cy_exec/training/lifecycle/contracts.py:136-143 | the attempts of a step never exceed max_attempts plus the manual resumes of that step |
| LifecycleTheorems.BudgetStep | training/core/src/cy_exec/training/lifecycle/reconciler.py:188-202 | each automatic start spends exactly one unit of a natural-number budget and no operation adds one |
| LifecycleTheorems.StartsAreBounded | training/core/src/cy_exec/training/lifecycle/reconciler.py:103-120 | over any run of operations the automatic starts fit into the plan's initial budget |
| LifecycleProgress.ActionsReadHistory | training/core/src/cy_exec/training/lifecycle/reconciler.py:66-135 | on every reachable nonterminal run each action, create and wait included, is chosen exactly when the attempts alone say so |
| LifecycleProgress.WaitsIff | training/core/src/cy_exec/training/lifecycle/reconciler.py:66-148 | with nothing active a nonterminal run waits exactly when, cancellation desired, its last attempt is cancelled without cleanup, or, while active, nothing is blocked or failed, some step is stuck and every step never attempted depends on one that has not succeeded; otherwise it creates, retries or finalises |
| LifecycleProgress.RunnableIff | training/core/src/cy_exec/training/lifecycle/reconciler.py:137-148 | a step is found to run exactly when some declared step was never attempted and has its dependencies as required |
| LifecycleProgress.OnlyCancelMovesIdle | training/core/src/cy_exec/training/lifecycle/reconciler.py:188-289 | of all operations only a request to cancel writes an idle run |
| LifecycleProgress.IdleStays | training/core/src/cy_exec/training/lifecycle/reconciler.py:204-275 | an idle run stays the same record until a request to cancel it, and once cancellation is desired it waits for good, without a further attempt or resume |
| LifecycleProgress.CancelledStepIdles | training/core/src/cy_exec/training/lifecycle/reconciler.py:92-135 | a concrete run: a step recorded as CANCELLED while the run is active, the next step still started, and then an idle wait |
| LifecycleProgress.Progress | training/core/src/cy_exec/training/lifecycle/reconciler.py:66-148 | without resume and cancellation, a nonterminal run with no active attempt creates, retries or finalises; it never waits idly |
| LifecycleTransitions.FinalisesIff | training/core/src/cy_exec/training/lifecycle/reconciler.py:277-289 | on every reachable nonterminal run the finalisation writes exactly one of the four terminal statuses, and the attempts say which: CANCELLED with nothing active or unconfirmed, BLOCKED over a blocked step, FAILED when the latest attempt failed and may not be retried, SUCCEEDED when every step did; otherwise it writes nothing |
| LifecycleTransitions.StartsIff | training/core/src/cy_exec/training/lifecycle/reconciler.py:188-202 | a start writes exactly for a step to create or retry, and then appends a PENDING attempt without references under the next number and shows the step and the run as RUNNING; anything else cannot create an attempt |
| LifecycleTransitions.ActionsNameLatest | training/core/src/cy_exec/training/lifecycle/reconciler.py:66-148 | a wait, a retry and a cancellation name the latest attempt and its step, and a creation names the first step of the order that can begin |
| LifecycleTransitions.ResumesIff | training/core/src/cy_exec/training/lifecycle/reconciler.py:204-232 | a resume writes exactly for a FAILED, CANCELLED or AWAITING_RETRY run and a declared step; each refusal is its own error |
| LifecycleTransitions.ObservesIff | training/core/src/cy_exec/training/lifecycle/reconciler.py:234-268 | which observation raises what, for every record: a stale generation, an attempt it does not hold, one that is over, and one whose outcome would move a terminal run; every other one writes |
| LifecycleTransitions.ObservationTells | training/core/src/cy_exec/training/lifecycle/reconciler.py:247-268 | a written observation gives the last attempt its status, its instant and what it brings of references, cleanup and error; step and run show it status by status; every other part of the record stays |
| LifecycleTransitions.StepStatusesTell | training/core/src/cy_exec/training/lifecycle/contracts.py:475-567 | on every reachable record a step without attempts has no status, and any other shows what its last attempt came to |
| LifecycleTransitions.AttemptsAreCounted | training/core/src/cy_exec/training/lifecycle/contracts.py:463-464 | what counts against a retry bound is the number of the attempts that name the step |
| Store.JsonFileControlPlaneStore.CreateOrGet | training/core/src/cy_exec/training/lifecycle/store.py:75-100 | submission returns the run of a known key if plan and kind agree and conflicts if not; a new key needs a kind and files one run, pending, active and empty at generation zero, under its name, its key and its plan, leaving all other records |
| Store.JsonFileControlPlaneStore.CompareAndSet | training/core/src/cy_exec/training/lifecycle/store.py:118-138 | a stale, unknown or history-rewriting caller changes nothing; a fresh one replaces that one run with its generation raised by one |
| Store.SwapsIff | training/core/src/cy_exec/training/lifecycle/store.py:118-138 | a swap refuses an unknown run, a moved generation, a changed document, a lost attempt and a rewritten end, each with its own error and without a change; otherwise the record takes the run's place at the next generation and keeps the instant of creation |
| Store.HistoryCheckIff | training/core/src/cy_exec/training/lifecycle/store.py:161-175 | the history check passes exactly when kind, plan and key are the same, no attempt is lost and none that is over is another record, and its error names the first of these that fails |
| Store.JsonFileControlPlaneStore.LoadRun | training/core/src/cy_exec/training/lifecycle/store.py:102-108 | a load returns the stored record or the unknown-run error |
| Store.JsonFileControlPlaneStore.LoadPlan | training/core/src/cy_exec/training/lifecycle/store.py:110-116 | a load returns the stored plan or the unknown-plan error |
| Store.ProductControlPlane.Submit | training/core/src/cy_exec/training/lifecycle/reconciler.py:161-171 | submission is the store's create-or-get |
| Store.ProductControlPlane.NextActionOf | training/core/src/cy_exec/training/lifecycle/reconciler.py:184-186 | the reconciler's action for the stored run, or the error of an unknown run, plan or step |
| Store.ProductControlPlane.StartNextAttempt | training/core/src/cy_exec/training/lifecycle/reconciler.py:188-202 | undisturbed, the call is one atomic start: it returns the attempt it appended or raises that operation's error |
| Store.ProductControlPlane.ResumeAttempt | training/core/src/cy_exec/training/lifecycle/reconciler.py:204-232 | undisturbed, the call is one atomic resume: it returns the attempt it appended or raises that operation's error |
| Store.ProductControlPlane.ObserveAttempt | training/core/src/cy_exec/training/lifecycle/reconciler.py:234-268 | undisturbed, the call is one atomic observation |
| Store.ProductControlPlane.RequestCancel | training/core/src/cy_exec/training/lifecycle/reconciler.py:270-275 | undisturbed, the call is one atomic cancellation request, and a terminal run is returned unchanged |
| Store.ProductControlPlane.ApplyTerminalAction | training/core/src/cy_exec/training/lifecycle/reconciler.py:277-289 | undisturbed, the call is one atomic finalisation (`LifecycleTransitions.FinalisesIff` says which status it writes), and any other action returns the run unchanged |
| Interleaving.InterleavingRefinesAtomic | training/core/src/cy_exec/training/lifecycle/reconciler.py:188-289 | for any interleaving and crashes of any number of controllers, each stored record is the replay of its logged operations applied atomically, and its generation counts them |
| Interleaving.CommitIsAtomicOrStale | training/core/src/cy_exec/training/lifecycle/store.py:118-138 | a compare-and-set either applies its operation to the current record and raises the generation by one, or is stale and changes nothing |
| Interleaving.GenerationNamesOneRecord | training/core/src/cy_exec/training/lifecycle/store.py:118-138 | over the whole history a run and a generation name one record |
| Interleaving.KeysAreIdempotent | training/core/src/cy_exec/training/lifecycle/store.py:75-100 | one idempotency key belongs to at most one run, and submitting it again returns that run and changes nothing |
| Driver.ReachableDriver | training/core/src/cy_exec/training/control_plane.py:300-530 | with threads racing inside reconcile and resume calls and memory lost at any point, references and sessions only ever name their own attempt and at most one thread may execute an attempt |
| Driver.AtMostOnceLaunch | training/core/src/cy_exec/training/control_plane.py:325-383 | the engine's submit is called at most once per attempt, and only for attempts of the record |
| Driver.MovedOk | training/core/src/cy_exec/training/control_plane.py:385-520 | what an engine answer leaves to record names the attempt's own session, and claims cleanup only with CANCELLED |
| Driver.CommitGrows | training/core/src/cy_exec/training/lifecycle/reconciler.py:188-289 | a committed operation forgets no attempt, and keeps a requested cancellation while its attempt is active |
| Quarantine.QuarantineHoldsIff | training/core/src/cy_exec/training/control_plane.py:489-530 | from a quarantined attempt, some continuation makes a later attempt without its confirmed cleanup exactly when a call already in flight can still deliver an outcome for it |
| Quarantine.SerialQuarantineHolds | training/core/src/cy_exec/training/control_plane.py:489-502 | with one call at a time, no later attempt exists until the quarantined one is recorded CANCELLED with cleanup confirmed |
| Quarantine.QuarantineMarks | training/core/src/cy_exec/training/control_plane.py:489-502 | a quarantine report that reaches the store leaves the attempt CANCELLING and the run on its way to cancellation |
| Quarantine.QuarantineCanFail | training/core/src/cy_exec/training/control_plane.py:300-410 | a concrete run from boot in which a racing thread launches the quarantined attempt and a resume passes it |
| Quarantine.SafeForever | training/core/src/cy_exec/training/control_plane.py:385-530 | without such a call in flight the quarantine survives every event, crashes included |
| Quarantine.StoppedForever | training/core/src/cy_exec/training/lifecycle/reconciler.py:83-90 | a last attempt cancelled without cleanup under a desired cancellation stays so through every event, crashes and resumes included |
| LateConfirmation.ConfirmationCanComeTooLate | training/core/src/cy_exec/training/control_plane.py:385-460 | a concrete run from boot: a poll overtakes the confirmed cancellation, whose report is refused, and the run is stopped |
| LateConfirmation.ConfirmationStoredIff | training/core/src/cy_exec/training/control_plane.py:448-460 | a confirmed cancellation leaves its attempt confirmed exactly when that attempt still is the active last one of a nonterminal run or was confirmed already |
| ControlPlane.TrainingControlPlane.ReconcileOnce | training/core/src/cy_exec/training/control_plane.py:300-323 | one product action finalises, polls, cancels, or starts and executes, as the reconciler decided; an unrecoverable spec or environment lock raises before anything starts; it returns the stored run or raises what the operation, the engine or the plan lookup raised, and leaves every other run |
| ControlPlane.TrainingControlPlane.ExecuteStep | training/core/src/cy_exec/training/control_plane.py:325-383 | the spec and the environment lock are recovered first, then preflight is judged on the spot and engine steps are launched and remembered; a failing recovery, an unknown step or a failing submission raises after the attempt exists |
| ControlPlane.TrainingControlPlane.ObserveExecution | training/core/src/cy_exec/training/control_plane.py:385-410 | an attempt without a session, with an unknown one or with another's is quarantined; otherwise the session's status is recorded (`ControlPlaneCalls.PollRecords` says as what); an unknown attempt, a failing engine or a refused observation raises |
| ControlPlane.TrainingControlPlane.CancelExecution | training/core/src/cy_exec/training/control_plane.py:412-460 | CANCELLED with cleanup is recorded only when the attempt's own session reports CANCELLED; anything else is recorded as unconfirmed; an unknown attempt, a failing engine or a refused observation raises |
| ControlPlane.TrainingControlPlane.Quarantine | training/core/src/cy_exec/training/control_plane.py:489-502 | cancellation is requested unless it was already, then the attempt is marked CANCELLING without cleanup; a refused observation raises |
| ControlPlane.TrainingControlPlane.RecordUnconfirmed | training/core/src/cy_exec/training/control_plane.py:504-520 | an unconfirmed cancellation is recorded once per cause, and then the stored run is returned; a refused observation raises |
| ControlPlane.TrainingControlPlane.SessionOf | training/core/src/cy_exec/training/control_plane.py:522-530 | the remembered session comes before the first durable reference, which is then remembered |
| ControlPlane.TrainingControlPlane.Resume | training/core/src/cy_exec/training/control_plane.py:254-264 | without a staged checkpoint the call raises and changes nothing; with one it appends one attempt and executes it, or raises what the resume or the execution raised |
| ControlPlaneCalls.PollRecords | training/core/src/cy_exec/training/control_plane.py:385-410 | a poll whose own session answers records SUCCEEDED exactly for COMPLETED, FAILED for FAILED, CANCELLED for CANCELLED, LOST for LOST or AWAITING_RETRY, RUNNING, PENDING for QUEUED and CANCELLING, under a reference to that session, and changes nothing else but what the run shows for it |
| ControlPlaneCalls.PollQuarantines | training/core/src/cy_exec/training/control_plane.py:385-410 | an attempt without a session, with an unknown one or with another's is left CANCELLING, its references kept and its cleanup unconfirmed, in a run whose cancellation is asked for |
| ControlPlaneCalls.CancelRecords | training/core/src/cy_exec/training/control_plane.py:412-460 | a cancellation records CANCELLED with confirmed cleanup exactly when the attempt's own session reports CANCELLED; every other answer leaves it CANCELLING and unconfirmed with its cause |
| ControlPlaneCalls.ExecutionRecords | training/core/src/cy_exec/training/control_plane.py:325-383 | preflight is recorded BLOCKED or SUCCEEDED by its verdict, an engine step in the status its new session came back in, after exactly one launch; an unrecoverable state, another step and a failing engine record nothing |
| ControlPlaneCalls.ReconcileActs | training/core/src/cy_exec/training/control_plane.py:300-323 | one reconcile of any reachable nonterminal run, read off its attempts: cancel, poll, finalise with which status, try again or begin which step, or do nothing |
| ControlPlaneCalls.ResumeActs | training/core/src/cy_exec/training/control_plane.py:254-264 | a resume without its checkpoint, of a run that is not stopped or of an unknown step raises and leaves the run; any other makes the run active and executes a new attempt of that step |
| ControlPlane.AtomicIsCommit | training/core/src/cy_exec/training/lifecycle/store.py:118-138 | on a store that holds the run as its invariant says, each atomic operation of the service is the driver's commit and the history check never interferes |
| ControlPlane.ReconcileIsRun | training/core/src/cy_exec/training/control_plane.py:300-323 | every reconcile call is a run of driver events, so the launch, quarantine and end-to-end theorems apply to it |
| ControlPlane.ResumeIsRun | training/core/src/cy_exec/training/control_plane.py:254-264 | so is every resume call |
| Runtime.TrainingSession.StartAttempt | training/core/src/cy_exec/training/runtime.py:436-478 | a start appends a RUNNING attempt with its handle, or a LOST or FAILED one that leaves the handle alone |
| Runtime.TrainingSession.Submit | training/core/src/cy_exec/training/runtime.py:125-165 | a new session is rejected before its first attempt or starts it; either is a session the runtime stores |
| Runtime.TrainingSession.Retry | training/core/src/cy_exec/training/runtime.py:167-186 | a retry goes through exactly when the session awaits retry or failed, its last attempt was lost or failed and the launch could be prepared; each refusal is its own error and leaves the session |
| Runtime.TrainingSession.Poll | training/core/src/cy_exec/training/runtime.py:198-265 | a poll changes only a queued or running session with a handle; it is COMPLETED exactly on exit code zero with published outputs and FAILED on every other exit, AWAITING_RETRY when the worker is lost, and unchanged while it runs or when the executor raises |
| Runtime.TrainingSession.Cancel | training/core/src/cy_exec/training/runtime.py:366-434 | a session that is over or awaits a retry stays; one with a handle is CANCELLED exactly when stopped, cleaned and without remaining processes, its attempt is LOST otherwise, and it is CANCELLING if the executor raises |
| Runtime.TrainingSession.MarkAttemptLost | training/core/src/cy_exec/training/runtime.py:480-492 | a lost attempt leaves session and run awaiting retry |
| Runtime.RuntimeAgreementIff | training/core/src/cy_exec/training/contracts/attempt.py:148-158 | after any submit, poll, retry, cancel or restore, session, run and derived status agree exactly when there is an attempt; the session rejected before its first attempt is the one exception |
| Runtime.LostNeverCompletes | training/core/src/cy_exec/training/runtime.py:480-492 | a lost attempt never shows as a completed run, and every attempt left behind failed or was lost |
| Runtime.SessionEndsAreFinal | training/core/src/cy_exec/training/runtime.py:366-393 | COMPLETED and CANCELLED sessions never change again, and the branch for a session without a handle never runs on a stored session |
| Kernel.LeaseProtocol | training/core/src/cy_exec/training/executors/kernel_training.py:381-443 | over every run with a crash between any RPC and any save, a worker's RPCs are one acquire, at most one start, then renewals and releases; a failed start issues at most one release and nothing more |
| Kernel.RpcsInPlace | training/core/src/cy_exec/training/executors/kernel_training.py:637-661 | a start follows a granted lease, a renewal needs a recorded operation and an unconfirmed release, and no RPC follows a saved release |
| Kernel.ReleasedIsSilent | training/core/src/cy_exec/training/executors/kernel_training.py:524-539 | a receipt marked released stays so and no RPC is issued after it |
| Kernel.SilentIffSaved | training/core/src/cy_exec/training/executors/kernel_training.py:524-539 | a worker that has run issues no further RPC in any continuation exactly when its release is saved |
| Kernel.TerminalReplyCanRepeat | training/core/src/cy_exec/training/executors/kernel_training.py:524-539 | a concrete run from a new worker: after the terminal reply a crash before the save makes the executor request the same release again |
| Kernel.UnsavedReleaseRepeats | training/core/src/cy_exec/training/executors/kernel_training.py:524-539 | so does a crash in every state that is saving a release of a running worker |
| Kernel.ReportsAreTrue | training/core/src/cy_exec/training/executors/kernel_training.py:541-569 | an exit code is returned only with a saved release after a terminal lease state, cleanup is confirmed exactly when the release is saved, and a start failure is LOST exactly when it is not |
| Kernel.ExitCodeIsSighted | training/core/src/cy_exec/training/executors/kernel_training.py:541-561 | however a worker's events interleave, an exit code handed out is that of the completion the last poll to begin had sighted, or 1 when it sighted a stale heartbeat or a failed renewal |
| Kernel.StartTells | training/core/src/cy_exec/training/executors/kernel_training.py:381-443 | a start of a new worker, answer by answer: the handle exactly when every answer is good, otherwise a failure that is LOST unless a lease was acquired and its release saved, and RPCs that stop at the first bad answer and give back a lease that was acquired |
| Kernel.KernelTrainingExecutor.Start | training/core/src/cy_exec/training/executors/kernel_training.py:381-443 | an uninterrupted start is the protocol's run for the answers given, saving after each step and giving the lease back on failure |
| Kernel.KernelTrainingExecutor.Poll | training/core/src/cy_exec/training/executors/kernel_training.py:541-561 | an uninterrupted poll is the protocol's run: the lease is released and the release saved before any exit code, which is the sighted completion's own, or 1 for a stale worker or a failed renewal |
| Kernel.KernelTrainingExecutor.Cancel | training/core/src/cy_exec/training/executors/kernel_training.py:563-569 | an uninterrupted cancellation is the protocol's run: confirmed exactly with a saved release, refused exactly when the Kernel keeps the lease, and raising when only the save fails |
| Kernel.KernelTrainingExecutor.Renew | training/core/src/cy_exec/training/executors/kernel_training.py:637-661 | renewing a receipt is the protocol's run: an operation with an unreleased lease is renewed once, a failed renewal is marked on the receipt, and the thread ends exactly on a receipt that could not be read or saved |
| Kernel.RenewAll | training/core/src/cy_exec/training/executors/kernel_training.py:637-661 | one pass over the receipt directory renews receipt by receipt up to the first that cannot be read or saved, leaves the rest, and ends the thread exactly then |
| Kernel.KernelTrainingExecutor.ReleaseReceipt | training/core/src/cy_exec/training/executors/kernel_training.py:524-539 | a release asks the Kernel unless the receipt says it did, marks the receipt exactly after a terminal state that is saved, and tells each kind of caller whether it is |
| EndToEnd.CancelledRunIsCleanedUp | training/core/src/cy_exec/training/control_plane.py:412-460 | a CANCELLED run has no active attempt, and its cancelled last attempt has a lease receipt saved as released after a terminal lease state was reported |
| EndToEnd.SucceededRunIsCleanedUp | training/core/src/cy_exec/training/executors/kernel_training.py:541-561 | a SUCCEEDED run has, for every engine step, a succeeded last attempt whose lease was released after a terminal lease state |
| EndToEnd.EndsHoldNoLease | training/core/src/cy_exec/training/runtime.py:399-418 | an attempt recorded as over and not lost holds no lease, and cleanup is recorded as confirmed only with a saved release |
| EndToEnd.EveryWorkerFollowsProtocol | training/core/src/cy_exec/training/executors/kernel_training.py:303-314 | every worker belongs to one launched attempt and speaks the lease protocol, restarts and receipt recovery included |
| EndToEnd.RestartKeeps | training/core/src/cy_exec/training/product_api.py:121-125 | wiping threads, memory and sessions and restoring sessions from receipts keeps the three layers consistent |
| EarnedSuccess.SuccessIsPolled | training/core/src/cy_exec/training/runtime.py:228-265 | across the three layers, whatever races, crashes and restarts: an engine attempt is recorded SUCCEEDED only after a poll of its own worker sighted exit code zero and a later poll event handed it over with the outputs published |
| EarnedSuccess.SucceededRunIsPolled | training/core/src/cy_exec/training/lifecycle/reconciler.py:125-135 | so for every engine step of a SUCCEEDED run |
| EarnedSuccess.PollDoneReports | training/core/src/cy_exec/training/control_plane.py:682-692 | a poll that ends with an exit code makes its thread report SUCCEEDED exactly for code zero with published outputs and FAILED otherwise, and the session agrees |
| EarnedSuccess.SubmissionReports | training/core/src/cy_exec/training/runtime.py:436-478 | a refused submission and one whose lease was given back are reported FAILED, one whose lease may still be held LOST, and one with a handle RUNNING |
| EarnedSuccess.CancellationReports | training/core/src/cy_exec/training/runtime.py:395-434 | a cancellation is reported CANCELLED with confirmed cleanup exactly when the worker's release is confirmed, and as unconfirmed otherwise |
| EarnedSuccess.RestartRestores | training/core/src/cy_exec/training/executors/kernel_training.py:303-314 | a restart keeps the record and every receipt, and gives exactly the workers whose receipt records an operation under a lease a handle and a running session |
| Journal.ProductStore.BeginOperation | training/core/src/cy_exec/training/product_store.py:146-234 | a known request gets its row's phase, or a conflict for another scope; a new one is already active or in conflict exactly when its binding is completed with this or with another installation, pending while another operation of the binding is unfinished, and otherwise reserved with a bare intent in both tables at once; every other reply changes nothing |
| Journal.ProductStore.VerifyIntent | training/core/src/cy_exec/training/product_store.py:236-258 | the check before the remote call passes exactly for the reserved request's own scope while its row shows the bare intent |
| Journal.ProductStore.RecordOutcome | training/core/src/cy_exec/training/product_store.py:260-321 | an outcome is stored in both tables exactly for a pending-outcome phase and a matching unfinished row whose receipt, if any, is the same; each refusal is its own error and changes nothing |
| Journal.ProductStore.MarkUnknown | training/core/src/cy_exec/training/product_store.py:323-379 | only a row without a receipt in INTENT or UNKNOWN is marked, and a failing second transaction leaves the owner state behind |
| Journal.ProductStore.MarkCompleted | training/core/src/cy_exec/training/product_store.py:407-449 | completion needs a recorded running status with a connection, erases receipt and blocker in both tables, and says which of the two is missing otherwise |
| Journal.ProductStore.PackageBindingStatus | training/core/src/cy_exec/training/product_store.py:451-512 | the public status of a binding is that of its one operation row, with the update time of its owner state, or unbound |
| Journal.StatusIsImplied | training/core/src/cy_exec/training/product_store.py:451-512 | the projection equals the row even between the two transactions that mark it unknown |
| BindingOwner.ActivateAtMostOnce | training/core/src/cy_exec/training/package_runtime_owner.py:94-198 | over the whole history, across concurrent requests, distinct request ids, reconciles and crashes, Activate is sent at most once per binding and a binding has at most one operation row |
| BindingOwner.SendsAfterIntent | training/core/src/cy_exec/training/package_runtime_owner.py:133-166 | Activate is sent only by the call that reserved the request and only while the durable row shows the bare intent; no other step, reconcile included, sends it |
| BindingOwner.PhasesAbsorb | training/core/src/cy_exec/training/package_runtime_owner.py:200-257 | ACTIVE and UNKNOWN absorb, and a receipt is write-once until completion erases it |
| BindingOwner.StatusIsCrashConsistent | training/core/src/cy_exec/training/product_store.py:260-512 | in every history a receipt exists exactly in the two pending-outcome phases, completion has a running status with a connection, and the public status is what the row implies |
| BindingOwner.HealthyVerdict | training/core/src/cy_exec/training/package_runtime_owner.py:401-449 | a status judged healthy is one the journal can complete |
| BindingCalls.VerdictTells | training/core/src/cy_exec/training/package_runtime_owner.py:401-449 | a verdict is healthy exactly for a well-formed report of this binding and installation that runs, names no failure and has a connection; otherwise its blocker says what is wrong |
| BindingCalls.ActivationEnds | training/core/src/cy_exec/training/package_runtime_owner.py:94-176 | an undisturbed activation of an unknown request and binding ends COMPLETED with the report and without a receipt when the runtime reports it running well, and otherwise waits for a reconcile with its receipt; Activate was sent once |
| BindingCalls.MistakenActivationEnds | training/core/src/cy_exec/training/package_runtime_owner.py:141-182 | an outcome whose receipt is malformed or of another request is not stored, and the request is UNKNOWN |
| BindingCalls.RaisedActivationEnds | training/core/src/cy_exec/training/package_runtime_owner.py:177-198 | when the client raises after Activate was sent, the request waits for a reconcile with the receipt the error carries, and is UNKNOWN without a receipt of its own |
| BindingCalls.ReconcileEnds | training/core/src/cy_exec/training/package_runtime_owner.py:200-257 | an undisturbed reconcile completes a waiting request exactly when the stored receipt is read back for an installed package that runs well; otherwise it leaves the tables, and it never sends Activate |
| Events.EventStore.AppendEvents | training/core/src/cy_exec/training/product_store.py:690-724 | the run's log grows by exactly the documents, numbered on from its end and indexed on from the attempt's count; no row is replaced and no other run changes |
| Events.AppendedRecords | training/core/src/cy_exec/training/product_store.py:690-724 | the appended records are the documents in order, their sequences counted on from the run's last and their indices from the number the attempt had |
| Events.EventStore.EventCount | training/core/src/cy_exec/training/product_store.py:726-737 | the count of rows is the count of the attempt's entries in the log |
| Events.EventStore.ListEvents | training/core/src/cy_exec/training/product_store.py:827-836 | a page is the next records after the cursor, as many as the clamped limit allows |
| Events.EventStore.HarvestEvents | training/core/src/cy_exec/training/product_service.py:740-776 | each attempt's log grows by what the longer of live stream and snapshot has beyond the stored count (`HarvestReaches` says it by lengths alone) |
| Events.HarvestReaches | training/core/src/cy_exec/training/product_service.py:761-776 | after a harvest an attempt has as many documents as the longest of the stored ones, the live stream and the snapshot: the stored ones, and behind them what a source of that length has beyond their number |
| Events.HarvestsStoreOnce | training/core/src/cy_exec/training/product_service.py:740-776 | with harvests one after the other and streams that regrow after restarts, each attempt's stream is stored once, in order and without gaps, as long as the longest live stream or snapshot that any harvest saw |
| Events.OverlapIsFaithfulIff | training/core/src/cy_exec/training/product_service.py:768-776 | over any overlapping reads and appends, for any documents, the log holds each place of the stream once, in order and without gaps exactly when every append went by a count that still stood or had nothing fresh |
| Events.OverlapDuplicates | training/core/src/cy_exec/training/product_service.py:768-776 | a concrete run: two harvests that both read before either stores put the first event into the log twice |
| Events.PagingYieldsAllOnce | training/core/src/cy_exec/training/product_service.py:649-676 | following next_sequence with any limits and appends in between yields every record after the cursor once and in order, and an empty page means nothing is left |
| Events.PageAdvances | training/core/src/cy_exec/training/product_service.py:665-676 | a page holds the next events in sequence, as many as a limit clamped to 1..20000 allows, ends at its last sequence and is empty exactly at the end of the log |
| Checkpoints.CheckpointManager.SaveCheckpoint | training/core/src/cy_exec/training/checkpoint/checkpoint_manager.py:96-141 | a save without loss, with a failing model or with metadata refused changes no listed step, metadata cut off half way loses the step's own earlier checkpoint and no other; a good save adds its step and, with clean-up, keeps the largest steps plus what could not be removed |
| Checkpoints.CheckpointManager.CleanupOldCheckpoints | training/core/src/cy_exec/training/checkpoint/checkpoint_manager.py:208-222 | a clean-up leaves the largest steps the limit allows plus the unremovable ones, and reports exactly what it removed |
| Checkpoints.CheckpointManager.FindLatestCheckpoint | training/core/src/cy_exec/training/checkpoint/checkpoint_manager.py:143-150 | the latest checkpoint is the largest listed step |
| Checkpoints.SortSteps | training/core/src/cy_exec/training/checkpoint/checkpoint_manager.py:208-212 | the listing is put into ascending order without loss |
| Checkpoints.RetainedIsBatch | training/core/src/cy_exec/training/checkpoint/checkpoint_manager.py:96-150 | after any sequence of auto-cleaning saves, in any order and with re-saves, the retained steps are the largest distinct steps ever saved |
| Checkpoints.LatestIsOverallMaximum | training/core/src/cy_exec/training/checkpoint/checkpoint_manager.py:143-150 | with a limit of at least one the overall maximum is retained and is the latest |
| Checkpoints.RetainedCount | training/core/src/cy_exec/training/checkpoint/checkpoint_manager.py:208-222 | exactly the limit is retained once enough distinct steps were saved |
| Weights.VerifyWeights | training/core/src/cy_exec/training/product_results.py:98-134 | a file is accepted exactly when it has a header object of legal length whose tensor ranges tile the payload |
| Weights.CheckTensors | training/core/src/cy_exec/training/product_results.py:113-134 | the ranges are accepted exactly when all are well formed, there is at least one, and every payload byte lies in exactly one; the lengths then add up to the payload |
| Weights.TilingsHaveBounds | training/core/src/cy_exec/training/product_results.py:113-127 | an accepted header has a tensor, and each tensor has exactly two integer offsets that bound a non-empty part of the payload |
| Weights.ChainedIffOnce | training/core/src/cy_exec/training/product_results.py:128-134 | for sorted non-empty ranges, meeting end to start from zero to the payload size is covering every byte once |
| Weights.SortRanges | training/core/src/cy_exec/training/product_results.py:127-127 | sorting keeps how many ranges hold each byte |
| ModelVersions.NormalizeIgnoresKeyOrder | sdk/python/cyrene_yield_contracts/src/cyrene_yield_contracts/model_version.py:249-311 | every key order of a payload has one canonical form, or none has any |
| ModelIdentity.NormalizeIdempotent | sdk/python/cyrene_yield_contracts/src/cyrene_yield_contracts/model_version.py:249-311 | normalising a canonical form changes nothing, key order included |
| ModelIdentity.DescriptorRoundTrip | sdk/python/cyrene_yield_contracts/src/cyrene_yield_contracts/model_version.py:113-311 | reading the canonical form gives back exactly the descriptor it was written from |
| ModelIdentity.ThawUndoesFreeze | sdk/python/cyrene_yield_contracts/src/cyrene_yield_contracts/model_version.py:314-327 | thawing undoes freezing on every JSON tree |
| ModelIdentity.CreatedIsAccepted | sdk/python/cyrene_yield_contracts/src/cyrene_yield_contracts/model_version.py:369-415 | from_dict of a created version's to_dict always succeeds, with the same id, identity payload and dictionary |
| ModelIdentity.AcceptedIsAuthentic | sdk/python/cyrene_yield_contracts/src/cyrene_yield_contracts/model_version.py:380-388 | an accepted dictionary carries exactly the id of its content, and creating from its identity payload gives that id again |
| ModelIdentity.CreateIgnoresKeyOrder | sdk/python/cyrene_yield_contracts/src/cyrene_yield_contracts/model_version.py:369-378 | two key orders of one payload create the same version |
| ModelIdentity.FromDictIgnoresKeyOrder | sdk/python/cyrene_yield_contracts/src/cyrene_yield_contracts/model_version.py:380-388 | two key orders of one dictionary are accepted as the same version, or both rejected |
| ModelIdentity.IdNamesContent | sdk/python/cyrene_yield_contracts/src/cyrene_yield_contracts/model_version.py:330-332 | two created versions share an id exactly when they are the same version, unless the digest collides on their two identity payloads |
| ModelPayloads.AcceptedHolds | sdk/python/cyrene_yield_contracts/src/cyrene_yield_contracts/model_version.py:113-311 | an accepted payload has no float, schema version 1 and exactly the keys of its composition; every digest names its location, and a model artifact's its manifest; an adapter is not its own base; components are inherited or overridden, never both; a parent is named by its hash |

## Left out

- Attempt and run metadata (result artifacts, event snapshots, resume checkpoints) are not fields of the records; nothing in the lifecycle reads them.
- The contents of the training spec and the environment lock, and the caches of both, are left out; a call meets them as recoverable or not.
- The in-line dry run that is not durable uses another job identity and is not the product configuration.
- Runtime-activity broker calls around start, resume and advance: the broker is not part of this model.
- HTTP routes, bearer checks, command validation, Workspace scopes, redaction and log formatting are single-branch plumbing.
- gRPC encoding, installation and signing, trainer probing and subprocesses appear as the answers of a step.
- Lease identities, fence tokens and TTL expiry are reduced to whether the receipt holds a lease; the Kernel's own expiry is one of its terminal states.
- Diagnostics tailing mixes character and byte offsets and is not modelled; the diagnostics table repeats the event table.
- Kernel.RenewAll: the timer between passes is left out; passes may come at any time.
- Kernel.KernelTrainingExecutor.Start: one executor object stands for one worker's receipt, so the directory of receipts is the family of such objects.
- BindingOwner.ActivateAtMostOnce: activate and reconcile are steps of a system rather than methods of an object, because a crash may fall inside each; the HTTP error codes they map to are left out.
- Checkpoints.CheckpointManager.SaveCheckpoint: metadata other than the loss is left out.
- Weights.VerifyWeights: reading and parsing the header bytes is a parameter of the file value.
- ModelVersions.NormalizeIgnoresKeyOrder: all rejections are one error, because the source raises ValueError for each.
- Events.EventStore.HarvestEvents: shaping an event into its document is left out; a document stands for the shaped event.
- Runtime.TrainingSession.Poll: event parsing, result collection and artifact publication are the outcome of the poll.
- Liveness beyond `WaitsIff` (that a worker's process ends, that a controller keeps polling) depends on the environment.
