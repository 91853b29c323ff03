/**
 * The owner of a package binding as a step system: concurrent activate and reconcile
 * calls over the journal, with a crash possible between any two transactions. The
 * runtime client is taken to call back for the intent, then to send at most one
 * Activate, then to hand over the outcome.
 */
module BindingOwner {
  import opened Prelude
  import opened Journal

  const PackageId := "cyrene.training.llama-factory"

  // ----- What the runtime reports -----

  /** textsValid: every optional text of the status is bounded and printable. */
  datatype RawStatus =
    | Malformed
    | RawStatus(bindingId: string, installationId: string, generation: int, state: string,
                failureCode: Option<string>, failureMessage: Option<string>, connectionRef: Option<string>,
                textsValid: bool)

  datatype Verdict = Verdict(snapshot: Option<RuntimeStatus>, healthy: bool, blocker: string)

  function StatusOutcome(raw: RawStatus, scope: Scope): Verdict {
    match raw
    case Malformed => Verdict(None, false, "PACKAGE_RUNTIME_STATUS_INVALID")
    case RawStatus(b, i, generation, state, code, message, connection, textsValid) =>
      if b != scope.bindingId || i != scope.installationId then Verdict(None, false, "PACKAGE_RUNTIME_SCOPE_MISMATCH")
      else if generation <= 0 || !(state == "RUNNING" || state == "STOPPED" || state == "FAILED") || !textsValid
      then Verdict(None, false, "PACKAGE_RUNTIME_STATUS_INVALID")
      else
        var healthy := state == "RUNNING" && code.None? && message.None? && connection.GetOr("") != "";
        Verdict(Some(RuntimeStatus(generation, state, code, connection)), healthy,
                if healthy then "PACKAGE_RUNTIME_COMPLETE_PENDING" else "PACKAGE_RUNTIME_BINDING_NOT_HEALTHY")
  }

  /** A healthy verdict is one the journal can complete. */
  lemma HealthyVerdict(raw: RawStatus, scope: Scope)
    ensures StatusOutcome(raw, scope).healthy ==> Healthy(StatusOutcome(raw, scope).snapshot)
  {
  }

  datatype SdkReceipt = SdkReceipt(requestId: string, scope: Scope, value: Receipt, wellFormed: bool)

  predicate ReceiptValid(r: SdkReceipt, requestId: string, scope: Scope) {
    r.wellFormed && r.requestId == requestId && r.scope == scope && scope.packageId == PackageId
  }

  // ----- Calls and events -----

  datatype Call =
    | NoCall
    | Reserving(requestId: string, scope: Scope)
    | Verified(requestId: string, scope: Scope)
    | Activated(requestId: string, scope: Scope)
    | Saved(requestId: string, scope: Scope)
    | Completing(requestId: string, scope: Scope)
    | Failing(requestId: string, scope: Scope, pending: Option<SdkReceipt>)
    | Checking(requestId: string, scope: Scope)
    | MarkingRow(requestId: string, scope: Scope)
    | MarkingState(requestId: string, scope: Scope)
    | Reading(requestId: string, scope: Scope, receipt: Receipt)
    | ReadBack(requestId: string, scope: Scope)
    | Recompleting(requestId: string, scope: Scope)

  datatype Activation = Activation(bindingId: string, requestId: string)

  /** The tables are durable; calls die in a crash; activations is the history of Activate. */
  datatype Owner = Owner(tables: Tables, clock: nat, calls: map<nat, Call>, activations: seq<Activation>)

  datatype OwnerEvent =
    | Activate(t: nat, requestId: string, scope: Scope)
    | Verify(t: nat)
    | SendActivate(t: nat)
    | Persist(t: nat, raw: RawStatus, receipt: SdkReceipt)
    | SdkReturned(t: nat)
    | SdkRaised(t: nat, pending: Option<SdkReceipt>)
    | OwnerRaised(t: nat)
    | Complete(t: nat)
    | RecordPending(t: nat)
    | Check(t: nat)
    | MarkRow(t: nat)
    | MarkState(t: nat, commits: bool)
    | Reconcile(t: nat, requestId: string, bindingId: string)
    | PersistReconciled(t: nat, raw: RawStatus, same: SdkReceipt, installed: bool)
    | Crash

  const OutcomeUnknown := "PACKAGE_RUNTIME_OUTCOME_UNKNOWN"
  const ReconcileRequired := "PACKAGE_RUNTIME_RECONCILE_REQUIRED"

  function CallOf(o: Owner, t: nat): Call {
    if t in o.calls then o.calls[t] else NoCall
  }

  function To(o: Owner, t: nat, call: Call): Owner {
    o.(calls := o.calls[t := call])
  }

  function Store(o: Owner, tables: Tables): Owner {
    o.(tables := tables, clock := o.clock + 1)
  }

  function Pick(healthy: bool): Phase {
    if healthy then OutcomePendingComplete else PendingReconcile
  }

  function BeginStep(o: Owner, t: nat, requestId: string, scope: Scope): Owner {
    if CallOf(o, t) != NoCall || scope.packageId != PackageId then o
    else
      var v := Store(o, Begun(o.tables, requestId, scope, o.clock));
      if BeginReplyOf(o.tables, requestId, scope) == Ok(Reserved) then To(v, t, Reserving(requestId, scope)) else v
  }

  /** A refused record is a plain error; an unhealthy status is an owner failure. */
  function PersistStep(o: Owner, t: nat, raw: RawStatus, receipt: SdkReceipt): Owner {
    match CallOf(o, t)
    case Activated(id, scope) =>
      if !ReceiptValid(receipt, id, scope) then To(o, t, Checking(id, scope))
      else if !Recordable(o.tables, id, scope, receipt.value) then To(o, t, Failing(id, scope, None))
      else
        var out := StatusOutcome(raw, scope);
        To(Store(o, Recorded(o.tables, id, scope, out.snapshot, receipt.value, Pick(out.healthy), Some(out.blocker), o.clock)),
           t, if out.healthy then Saved(id, scope) else Checking(id, scope))
    case _ => o
  }

  function RecordPendingStep(o: Owner, t: nat): Owner {
    match CallOf(o, t)
    case Failing(id, scope, pending) =>
      if pending.Some? && ReceiptValid(pending.value, id, scope) && Recordable(o.tables, id, scope, pending.value.value)
      then To(Store(o, Recorded(o.tables, id, scope, None, pending.value.value, PendingReconcile, Some(ReconcileRequired), o.clock)),
              t, NoCall)
      else To(o, t, Checking(id, scope))
    case _ => o
  }

  function CompleteStep(o: Owner, t: nat): Owner {
    match CallOf(o, t)
    case Completing(id, scope) =>
      To(Store(o, Finished(o.tables, id, o.clock)), t,
         if Completable(o.tables, id) then NoCall else Failing(id, scope, None))
    case Recompleting(id, _) => To(Store(o, Finished(o.tables, id, o.clock)), t, NoCall)
    case _ => o
  }

  function MarkStep(o: Owner, t: nat, e: OwnerEvent): Owner {
    match CallOf(o, t)
    case Checking(id, scope) =>
      if !e.Check? then o
      else To(o, t, if id in o.tables.ops && o.tables.ops[id].receipt.None? then MarkingRow(id, scope) else NoCall)
    case MarkingRow(id, scope) =>
      if !e.MarkRow? then o
      else To(Store(o, MarkedRow(o.tables, id, OutcomeUnknown, o.clock)), t,
              if Markable(o.tables, id) then MarkingState(id, scope) else NoCall)
    case MarkingState(id, scope) =>
      if !e.MarkState? then o
      else if e.commits then To(Store(o, MarkedState(o.tables, id, scope, OutcomeUnknown, o.clock)), t, NoCall)
      else To(o, t, NoCall)
    case _ => o
  }

  function ReconcileStep(o: Owner, t: nat, requestId: string, bindingId: string): Owner {
    if CallOf(o, t) != NoCall || requestId !in o.tables.ops || o.tables.ops[requestId].scope.bindingId != bindingId then o
    else
      var row := o.tables.ops[requestId];
      if (row.phase.OutcomePendingComplete? || row.phase.PendingReconcile?) && row.receipt.Some? && row.scope.packageId == PackageId
      then To(o, t, Reading(requestId, row.scope, row.receipt.value))
      else o
  }

  function PersistReconciledStep(o: Owner, t: nat, raw: RawStatus, same: SdkReceipt, installed: bool): Owner {
    match CallOf(o, t)
    case Reading(id, scope, receipt) =>
      var out := StatusOutcome(raw, scope);
      if !installed || !ReceiptValid(same, id, scope) || same.value != receipt || !out.healthy
         || !Recordable(o.tables, id, scope, receipt)
      then To(o, t, NoCall)
      else To(Store(o, Recorded(o.tables, id, scope, out.snapshot, receipt, OutcomePendingComplete, Some(out.blocker), o.clock)),
              t, ReadBack(id, scope))
    case _ => o
  }

  function SdkStep(o: Owner, t: nat, e: OwnerEvent): Owner {
    match CallOf(o, t)
    case Reserving(id, scope) => SdkOutcome(o, t, e, id, scope)
    case Verified(id, scope) => SdkOutcome(o, t, e, id, scope)
    case Activated(id, scope) => SdkOutcome(o, t, e, id, scope)
    case Saved(id, scope) => SdkOutcome(o, t, e, id, scope)
    case ReadBack(id, scope) => To(o, t, if e.SdkReturned? then Recompleting(id, scope) else NoCall)
    case Reading(id, scope, _) => To(o, t, if e.SdkReturned? then Recompleting(id, scope) else NoCall)
    case _ => o
  }

  /** How an activate call leaves the client. */
  function SdkOutcome(o: Owner, t: nat, e: OwnerEvent, id: string, scope: Scope): Owner {
    match e
    case SdkReturned(_) => To(o, t, Completing(id, scope))
    case SdkRaised(_, pending) => To(o, t, Failing(id, scope, pending))
    case OwnerRaised(_) => To(o, t, Checking(id, scope))
    case _ => o
  }

  function VerifyStep(o: Owner, t: nat): Owner {
    match CallOf(o, t)
    case Reserving(id, scope) =>
      To(o, t, if IntentMatches(o.tables, id, scope) then Verified(id, scope) else Failing(id, scope, None))
    case _ => o
  }

  function SendStep(o: Owner, t: nat): Owner {
    match CallOf(o, t)
    case Verified(id, scope) =>
      To(o.(activations := o.activations + [Activation(scope.bindingId, id)]), t, Activated(id, scope))
    case _ => o
  }

  function Step(o: Owner, e: OwnerEvent): Owner {
    match e
    case Activate(t, requestId, scope) => BeginStep(o, t, requestId, scope)
    case Verify(t) => VerifyStep(o, t)
    case SendActivate(t) => SendStep(o, t)
    case Persist(t, raw, receipt) => PersistStep(o, t, raw, receipt)
    case SdkReturned(t) => SdkStep(o, t, e)
    case SdkRaised(t, _) => SdkStep(o, t, e)
    case OwnerRaised(t) => SdkStep(o, t, e)
    case Complete(t) => CompleteStep(o, t)
    case RecordPending(t) => RecordPendingStep(o, t)
    case Check(t) => MarkStep(o, t, e)
    case MarkRow(t) => MarkStep(o, t, e)
    case MarkState(t, _) => MarkStep(o, t, e)
    case Reconcile(t, requestId, bindingId) => ReconcileStep(o, t, requestId, bindingId)
    case PersistReconciled(t, raw, same, installed) => PersistReconciledStep(o, t, raw, same, installed)
    case Crash => o.(calls := map[])
  }

  function Run(o: Owner, events: seq<OwnerEvent>): Owner {
    if events == [] then o else Step(Run(o, events[..|events| - 1]), events[|events| - 1])
  }

  const FreshOwner := Owner(EmptyTables, 0, map[], [])

  // ----- The owner invariant -----

  /** The request an activate call still holds. */
  function Holds(call: Call): Option<string> {
    match call
    case Reserving(id, _) => Some(id)
    case Verified(id, _) => Some(id)
    case Activated(id, _) => Some(id)
    case Saved(id, _) => Some(id)
    case Completing(id, _) => Some(id)
    case Failing(id, _, _) => Some(id)
    case Checking(id, _) => Some(id)
    case MarkingRow(id, _) => Some(id)
    case MarkingState(id, _) => Some(id)
    case _ => None
  }

  predicate Sent(o: Owner, requestId: string) {
    exists i :: 0 <= i < |o.activations| && o.activations[i].requestId == requestId
  }

  predicate CallOk(o: Owner, call: Call) {
    call.NoCall? ||
    (&& call.requestId in o.tables.ops && o.tables.ops[call.requestId].scope == call.scope
     && (call.Reserving? || call.Verified? ==> o.tables.ops[call.requestId].phase.Intent? && !Sent(o, call.requestId))
     && (call.MarkingState? ==> o.tables.ops[call.requestId].phase.Unknown?)
     && (call.Reading? || call.ReadBack? || call.Recompleting? ==> !o.tables.ops[call.requestId].phase.Intent?))
  }

  ghost predicate CallsOk(o: Owner) {
    forall t: nat {:trigger CallOf(o, t)} :: CallOk(o, CallOf(o, t))
  }

  ghost predicate OneHolder(o: Owner) {
    forall t: nat, u: nat {:trigger CallOf(o, t), CallOf(o, u)} |
      t != u && Holds(CallOf(o, t)).Some? :: Holds(CallOf(o, t)) != Holds(CallOf(o, u))
  }

  predicate ActivationsOk(o: Owner) {
    && (forall i | 0 <= i < |o.activations| ::
          o.activations[i].requestId in o.tables.ops
          && o.tables.ops[o.activations[i].requestId].scope.bindingId == o.activations[i].bindingId)
    && (forall i, j | 0 <= i < j < |o.activations| :: o.activations[i].requestId != o.activations[j].requestId)
  }

  ghost predicate OwnerInv(o: Owner) {
    JournalInv(o.tables) && CallsOk(o) && OneHolder(o) && ActivationsOk(o)
  }

  // ----- Preservation -----

  /** A transaction on a row that t holds, or that is past its intent, or new. */
  lemma Moves(o: Owner, v: Owner, t: nat, id: string)
    requires OwnerInv(o) && JournalInv(v.tables) && TablesMove(o.tables, v.tables, id)
    requires v.activations == o.activations
    requires forall u: nat {:trigger CallOf(v, u)} | u != t :: CallOf(v, u) == CallOf(o, u)
    requires Holds(CallOf(o, t)) == Some(id) || id !in o.tables.ops || !o.tables.ops[id].phase.Intent?
             || v.tables.ops == o.tables.ops
    requires CallOk(v, CallOf(v, t))
    requires Holds(CallOf(v, t)).Some? ==> Holds(CallOf(v, t)) == Holds(CallOf(o, t)) || Holds(CallOf(v, t)).value !in o.tables.ops
    ensures OwnerInv(v)
  {
    forall u: nat {:trigger CallOf(v, u)} ensures CallOk(v, CallOf(v, u)) {
      if u != t {
        var call := CallOf(o, u);
        assert CallOk(o, call);
        assert Holds(CallOf(o, t)).Some? ==> Holds(CallOf(o, t)) != Holds(call);
      }
    }
    forall a: nat, b: nat {:trigger CallOf(v, a), CallOf(v, b)} | a != b && Holds(CallOf(v, a)).Some?
      ensures Holds(CallOf(v, a)) != Holds(CallOf(v, b))
    {
      assert CallOk(o, CallOf(o, a)) && CallOk(o, CallOf(o, b));
      assert Holds(CallOf(o, a)).Some? ==> Holds(CallOf(o, a)) != Holds(CallOf(o, b));
      assert Holds(CallOf(o, b)).Some? ==> Holds(CallOf(o, b)) != Holds(CallOf(o, a));
    }
  }

  lemma LocalMove(o: Owner, t: nat, call: Call)
    requires OwnerInv(o) && CallOk(o, call)
    requires Holds(call).Some? ==> Holds(call) == Holds(CallOf(o, t))
    ensures OwnerInv(To(o, t, call))
  {
    Moves(o, To(o, t, call), t, "");
  }

  lemma BeginMoves(o: Owner, t: nat, requestId: string, scope: Scope)
    requires OwnerInv(o)
    ensures OwnerInv(BeginStep(o, t, requestId, scope))
  {
    var v := BeginStep(o, t, requestId, scope);
    if v != o {
      BeginKeeps(o.tables, requestId, scope, o.clock);
      BeginMovesRows(o.tables, requestId, scope, o.clock);
      if BeginReplyOf(o.tables, requestId, scope) == Ok(Reserved) {
        forall i | 0 <= i < |o.activations| ensures o.activations[i].requestId != requestId {}
        assert CallOk(v, CallOf(v, t));
      }
      Moves(o, v, t, requestId);
    }
  }

  /** A transaction of the call that t is in, on that call's own row. */
  lemma StoreMoves(o: Owner, t: nat, tables: Tables, call: Call)
    requires OwnerInv(o) && JournalInv(tables) && CallOf(o, t) != NoCall
    requires TablesMove(o.tables, tables, CallOf(o, t).requestId)
    requires call.NoCall? || (call.requestId == CallOf(o, t).requestId && call.scope == CallOf(o, t).scope)
    requires !call.Reserving? && !call.Verified?
    requires call.MarkingState? ==> tables.ops[call.requestId].phase.Unknown?
    requires call.Reading? || call.ReadBack? || call.Recompleting? ==> !tables.ops[call.requestId].phase.Intent?
    requires Holds(call).Some? ==> Holds(call) == Holds(CallOf(o, t))
    ensures OwnerInv(To(Store(o, tables), t, call))
  {
    assert CallOk(o, CallOf(o, t));
    Moves(o, To(Store(o, tables), t, call), t, CallOf(o, t).requestId);
  }

  lemma PersistMoves(o: Owner, t: nat, raw: RawStatus, receipt: SdkReceipt)
    requires OwnerInv(o)
    ensures OwnerInv(PersistStep(o, t, raw, receipt))
  {
    var call := CallOf(o, t);
    assert CallOk(o, call);
    if call.Activated? {
      var id, scope, out := call.requestId, call.scope, StatusOutcome(raw, call.scope);
      if !ReceiptValid(receipt, id, scope) {
        LocalMove(o, t, Checking(id, scope));
      } else if !Recordable(o.tables, id, scope, receipt.value) {
        LocalMove(o, t, Failing(id, scope, None));
      } else {
        HealthyVerdict(raw, scope);
        RecordKeeps(o.tables, id, scope, out.snapshot, receipt.value, Pick(out.healthy), Some(out.blocker), o.clock);
        RecordMovesRows(o.tables, id, scope, out.snapshot, receipt.value, Pick(out.healthy), Some(out.blocker), o.clock);
        StoreMoves(o, t, Recorded(o.tables, id, scope, out.snapshot, receipt.value, Pick(out.healthy), Some(out.blocker), o.clock),
                   if out.healthy then Saved(id, scope) else Checking(id, scope));
      }
    }
  }

  lemma RecordPendingMoves(o: Owner, t: nat)
    requires OwnerInv(o)
    ensures OwnerInv(RecordPendingStep(o, t))
  {
    var call := CallOf(o, t);
    assert CallOk(o, call);
    if call.Failing? {
      var id, scope := call.requestId, call.scope;
      if call.pending.Some? && ReceiptValid(call.pending.value, id, scope) && Recordable(o.tables, id, scope, call.pending.value.value) {
        var receipt := call.pending.value.value;
        RecordKeeps(o.tables, id, scope, None, receipt, PendingReconcile, Some(ReconcileRequired), o.clock);
        RecordMovesRows(o.tables, id, scope, None, receipt, PendingReconcile, Some(ReconcileRequired), o.clock);
        StoreMoves(o, t, Recorded(o.tables, id, scope, None, receipt, PendingReconcile, Some(ReconcileRequired), o.clock), NoCall);
      } else {
        LocalMove(o, t, Checking(id, scope));
      }
    }
  }

  lemma CompleteMoves(o: Owner, t: nat)
    requires OwnerInv(o)
    ensures OwnerInv(CompleteStep(o, t))
  {
    var call := CallOf(o, t);
    if call.Completing? || call.Recompleting? {
      FinishKeeps(o.tables, call.requestId, o.clock);
      FinishMovesRows(o.tables, call.requestId, o.clock);
      StoreMoves(o, t, Finished(o.tables, call.requestId, o.clock), CallOf(CompleteStep(o, t), t));
    }
  }

  lemma MarkRowMoves(o: Owner, t: nat)
    requires OwnerInv(o) && CallOf(o, t).MarkingRow?
    ensures OwnerInv(MarkStep(o, t, MarkRow(t)))
  {
    var call := CallOf(o, t);
    assert CallOk(o, call);
    MarkRowKeeps(o.tables, call.requestId, OutcomeUnknown, o.clock);
    MarkMovesRows(o.tables, call.requestId, OutcomeUnknown, o.clock);
    hide JournalInv;
    StoreMoves(o, t, MarkedRow(o.tables, call.requestId, OutcomeUnknown, o.clock), CallOf(MarkStep(o, t, MarkRow(t)), t));
  }

  lemma MarkStateMoves(o: Owner, t: nat)
    requires OwnerInv(o) && CallOf(o, t).MarkingState?
    ensures OwnerInv(MarkStep(o, t, MarkState(t, true)))
  {
    var call := CallOf(o, t);
    assert CallOk(o, call);
    MarkStateKeeps(o.tables, call.requestId, call.scope, OutcomeUnknown, o.clock);
    hide JournalInv;
    StoreMoves(o, t, MarkedState(o.tables, call.requestId, call.scope, OutcomeUnknown, o.clock), NoCall);
  }

  lemma MarkMoves(o: Owner, t: nat, e: OwnerEvent)
    requires OwnerInv(o) && (e == Check(t) || e == MarkRow(t) || (e.MarkState? && e.t == t))
    ensures OwnerInv(MarkStep(o, t, e))
  {
    hide JournalInv, MarkedRow, MarkedState;
    var call := CallOf(o, t);
    assert CallOk(o, call);
    if call.Checking? && e.Check? {
      LocalMove(o, t, CallOf(MarkStep(o, t, e), t));
    } else if call.MarkingRow? && e.MarkRow? {
      MarkRowMoves(o, t);
    } else if call.MarkingState? && e.MarkState? {
      if e.commits {
        MarkStateMoves(o, t);
      } else {
        LocalMove(o, t, NoCall);
      }
    }
  }

  lemma PersistReconciledMoves(o: Owner, t: nat, raw: RawStatus, same: SdkReceipt, installed: bool)
    requires OwnerInv(o)
    ensures OwnerInv(PersistReconciledStep(o, t, raw, same, installed))
  {
    var call := CallOf(o, t);
    assert CallOk(o, call);
    if call.Reading? {
      var id, scope, out := call.requestId, call.scope, StatusOutcome(raw, call.scope);
      if !installed || !ReceiptValid(same, id, scope) || same.value != call.receipt || !out.healthy
         || !Recordable(o.tables, id, scope, call.receipt) {
        LocalMove(o, t, NoCall);
      } else {
        HealthyVerdict(raw, scope);
        RecordKeeps(o.tables, id, scope, out.snapshot, call.receipt, OutcomePendingComplete, Some(out.blocker), o.clock);
        RecordMovesRows(o.tables, id, scope, out.snapshot, call.receipt, OutcomePendingComplete, Some(out.blocker), o.clock);
        StoreMoves(o, t, Recorded(o.tables, id, scope, out.snapshot, call.receipt, OutcomePendingComplete, Some(out.blocker), o.clock),
                   ReadBack(id, scope));
      }
    }
  }

  lemma SendMoves(o: Owner, t: nat)
    requires OwnerInv(o)
    ensures OwnerInv(SendStep(o, t))
  {
    var call, v := CallOf(o, t), SendStep(o, t);
    assert CallOk(o, call);
    if call.Verified? {
      forall i | 0 <= i < |o.activations| ensures o.activations[i].requestId != call.requestId {
        if o.activations[i].requestId == call.requestId { assert Sent(o, call.requestId); }
      }
      forall u: nat {:trigger CallOf(v, u)} ensures CallOk(v, CallOf(v, u)) {
        if u != t {
          assert CallOk(o, CallOf(o, u));
          assert Holds(CallOf(o, t)) != Holds(CallOf(o, u));
        }
      }
      forall a: nat, b: nat {:trigger CallOf(v, a), CallOf(v, b)} | a != b && Holds(CallOf(v, a)).Some?
        ensures Holds(CallOf(v, a)) != Holds(CallOf(v, b))
      {
        assert Holds(CallOf(v, a)) == Holds(CallOf(o, a)) && Holds(CallOf(v, b)) == Holds(CallOf(o, b));
      }
    }
  }

  lemma SdkMoves(o: Owner, t: nat, e: OwnerEvent)
    requires OwnerInv(o) && (e.SdkReturned? || e.SdkRaised? || e.OwnerRaised?)
    ensures OwnerInv(SdkStep(o, t, e))
  {
    assert CallOk(o, CallOf(o, t));
    var v := SdkStep(o, t, e);
    if v != o {
      assert v == To(o, t, CallOf(v, t));
      LocalMove(o, t, CallOf(v, t));
    }
  }

  lemma VerifyMoves(o: Owner, t: nat)
    requires OwnerInv(o)
    ensures OwnerInv(VerifyStep(o, t))
  {
    assert CallOk(o, CallOf(o, t));
    if CallOf(o, t).Reserving? { LocalMove(o, t, CallOf(VerifyStep(o, t), t)); }
  }

  lemma ReconcileMoves(o: Owner, t: nat, requestId: string, bindingId: string)
    requires OwnerInv(o)
    ensures OwnerInv(ReconcileStep(o, t, requestId, bindingId))
  {
    if ReconcileStep(o, t, requestId, bindingId) != o {
      LocalMove(o, t, CallOf(ReconcileStep(o, t, requestId, bindingId), t));
    }
  }

  lemma CrashMoves(o: Owner)
    requires OwnerInv(o)
    ensures OwnerInv(Step(o, Crash))
  {
    hide JournalInv;
    assert forall u: nat {:trigger CallOf(Step(o, Crash), u)} :: CallOf(Step(o, Crash), u) == NoCall;
  }

  lemma StepKeeps(o: Owner, e: OwnerEvent)
    requires OwnerInv(o)
    ensures OwnerInv(Step(o, e))
  {
    hide OwnerInv, BeginStep, PersistStep, MarkStep;
    match e {
      case Activate(t, requestId, scope) => BeginMoves(o, t, requestId, scope);
      case Verify(t) => VerifyMoves(o, t);
      case SendActivate(t) => SendMoves(o, t);
      case Persist(t, raw, receipt) => PersistMoves(o, t, raw, receipt);
      case SdkReturned(t) => SdkMoves(o, t, e);
      case SdkRaised(t, _) => SdkMoves(o, t, e);
      case OwnerRaised(t) => SdkMoves(o, t, e);
      case Complete(t) => CompleteMoves(o, t);
      case RecordPending(t) => RecordPendingMoves(o, t);
      case Check(t) => MarkMoves(o, t, e);
      case MarkRow(t) => MarkMoves(o, t, e);
      case MarkState(t, _) => MarkMoves(o, t, e);
      case Reconcile(t, requestId, bindingId) => ReconcileMoves(o, t, requestId, bindingId);
      case PersistReconciled(t, raw, same, installed) => PersistReconciledMoves(o, t, raw, same, installed);
      case Crash => CrashMoves(o);
    }
  }

  lemma {:induction false} RunKeeps(events: seq<OwnerEvent>)
    ensures OwnerInv(Run(FreshOwner, events))
  {
    if events == [] {
      assert forall u: nat {:trigger CallOf(FreshOwner, u)} :: CallOf(FreshOwner, u) == NoCall;
    } else {
      RunKeeps(events[..|events| - 1]);
      StepKeeps(Run(FreshOwner, events[..|events| - 1]), events[|events| - 1]);
    }
  }

  // ----- What every history of the owner shows -----

  /**
   * Over the whole history of a binding, across concurrent requests, distinct request
   * ids, reconciles and crashes, Activate is sent at most once, and the binding has at
   * most one operation row.
   */
  lemma {:induction false} ActivateAtMostOnce(events: seq<OwnerEvent>)
    ensures var o := Run(FreshOwner, events);
            && (forall i, j | 0 <= i < |o.activations| && 0 <= j < |o.activations|
                              && o.activations[i].bindingId == o.activations[j].bindingId :: i == j)
            && OneRowPerBinding(o.tables)
  {
    RunKeeps(events);
    var o := Run(FreshOwner, events);
    forall i, j | 0 <= i < j < |o.activations| ensures o.activations[i].bindingId != o.activations[j].bindingId {
      assert o.activations[i].requestId != o.activations[j].requestId;
    }
  }

  predicate RowStays(o: Owner, v: Owner, id: string)
    requires id in o.tables.ops
  {
    id in v.tables.ops && RowMoves(o.tables.ops[id], v.tables.ops[id])
  }

  /** The tables after an outcome was handed over: the same, or with that outcome recorded. */
  lemma PersistTables(o: Owner, t: nat, raw: RawStatus, receipt: SdkReceipt)
    ensures var call, v := CallOf(o, t), PersistStep(o, t, raw, receipt).tables;
            v == o.tables || (call.Activated? &&
              var out := StatusOutcome(raw, call.scope);
              v == Recorded(o.tables, call.requestId, call.scope, out.snapshot, receipt.value,
                            Pick(out.healthy), Some(out.blocker), o.clock))
  {
    hide Recorded, StatusOutcome, ReceiptValid, Recordable;
  }

  lemma PersistRows(o: Owner, t: nat, raw: RawStatus, receipt: SdkReceipt, id: string)
    requires OwnerInv(o) && id in o.tables.ops
    ensures RowStays(o, PersistStep(o, t, raw, receipt), id)
  {
    hide PersistStep, Recorded, StatusOutcome;
    PersistTables(o, t, raw, receipt);
    var call := CallOf(o, t);
    if call.Activated? {
      var out := StatusOutcome(raw, call.scope);
      RecordMovesRows(o.tables, call.requestId, call.scope, out.snapshot, receipt.value, Pick(out.healthy), Some(out.blocker), o.clock);
    }
  }

  lemma BeginRows(o: Owner, t: nat, requestId: string, scope: Scope, id: string)
    requires OwnerInv(o) && id in o.tables.ops
    ensures RowStays(o, BeginStep(o, t, requestId, scope), id)
  {
    RowFits(o.tables, id);
    BeginMovesRows(o.tables, requestId, scope, o.clock);
  }

  lemma CompleteRows(o: Owner, t: nat, id: string)
    requires OwnerInv(o) && id in o.tables.ops
    ensures RowStays(o, CompleteStep(o, t), id)
  {
    RowFits(o.tables, id);
    if CallOf(o, t) != NoCall { FinishMovesRows(o.tables, CallOf(o, t).requestId, o.clock); }
  }

  lemma MarkRows(o: Owner, t: nat, e: OwnerEvent, id: string)
    requires OwnerInv(o) && id in o.tables.ops
    ensures RowStays(o, MarkStep(o, t, e), id)
  {
    hide MarkedRow, CallOk, JournalInv, Markable;
    if CallOf(o, t).MarkingRow? { MarkMovesRows(o.tables, CallOf(o, t).requestId, OutcomeUnknown, o.clock); }
  }

  lemma PendingRows(o: Owner, t: nat, id: string)
    requires OwnerInv(o) && id in o.tables.ops
    ensures RowStays(o, RecordPendingStep(o, t), id)
  {
    RowFits(o.tables, id);
    var call := CallOf(o, t);
    if call.Failing? && call.pending.Some? {
      RecordMovesRows(o.tables, call.requestId, call.scope, None, call.pending.value.value, PendingReconcile, Some(ReconcileRequired), o.clock);
    }
  }

  lemma ReconciledRows(o: Owner, t: nat, raw: RawStatus, same: SdkReceipt, installed: bool, id: string)
    requires OwnerInv(o) && id in o.tables.ops
    ensures RowStays(o, PersistReconciledStep(o, t, raw, same, installed), id)
  {
    RowFits(o.tables, id);
    var call := CallOf(o, t);
    if call.Reading? {
      var out := StatusOutcome(raw, call.scope);
      RecordMovesRows(o.tables, call.requestId, call.scope, out.snapshot, call.receipt, OutcomePendingComplete, Some(out.blocker), o.clock);
    }
  }

  lemma OthersKeepTables(o: Owner, e: OwnerEvent)
    requires e.Verify? || e.SendActivate? || e.SdkReturned? || e.SdkRaised? || e.OwnerRaised? || e.Reconcile? || e.Crash?
    ensures Step(o, e).tables == o.tables
  {
  }

  /** Recording an outcome, whoever records it. */
  lemma OutcomeRows(o: Owner, e: OwnerEvent, id: string)
    requires OwnerInv(o) && id in o.tables.ops && (e.Persist? || e.RecordPending? || e.PersistReconciled?)
    ensures RowStays(o, Step(o, e), id)
  {
    match e {
      case Persist(t, raw, receipt) => PersistRows(o, t, raw, receipt, id);
      case RecordPending(t) => PendingRows(o, t, id);
      case PersistReconciled(t, raw, same, installed) => ReconciledRows(o, t, raw, same, installed, id);
    }
  }

  /** How the tables move in one step: a row is never removed and never leaves its absorbing phase. */
  lemma StepMovesRows(o: Owner, e: OwnerEvent, id: string)
    requires OwnerInv(o) && id in o.tables.ops
    ensures RowStays(o, Step(o, e), id)
  {
    if e.Persist? || e.RecordPending? || e.PersistReconciled? {
      OutcomeRows(o, e, id);
    } else if e.Check? || e.MarkRow? || e.MarkState? {
      MarkRows(o, e.t, e, id);
    } else if e.Activate? {
      BeginRows(o, e.t, e.requestId, e.scope, id);
    } else if e.Complete? {
      CompleteRows(o, e.t, id);
    } else {
      RowFits(o.tables, id);
      OthersKeepTables(o, e);
    }
  }

  /**
   * Activate is sent only by the call that reserved its request, and only while the
   * durable row still shows the bare intent; no other step, reconcile included, sends it.
   */
  lemma SendsAfterIntent(o: Owner, e: OwnerEvent)
    requires OwnerInv(o)
    ensures Step(o, e).activations != o.activations ==>
              && e.SendActivate? && CallOf(o, e.t).Verified?
              && var call := CallOf(o, e.t);
                 && Step(o, e).activations == o.activations + [Activation(call.scope.bindingId, call.requestId)]
                 && call.requestId in o.tables.ops && o.tables.ops[call.requestId].phase.Intent?
                 && o.tables.ops[call.requestId].receipt.None? && !Sent(o, call.requestId)
  {
    if e.SendActivate? {
      var call := CallOf(o, e.t);
      assert CallOk(o, call);
      if call.Verified? { RowFits(o.tables, call.requestId); }
    }
  }

  /**
   * From any point of a history on: ACTIVE and UNKNOWN absorb, and a receipt once written
   * is the same until completion erases it.
   */
  lemma {:induction false} PhasesAbsorb(events: seq<OwnerEvent>, k: nat, id: string)
    requires k <= |events| && id in Run(FreshOwner, events[..k]).tables.ops
    ensures id in Run(FreshOwner, events).tables.ops
    ensures var a, c := Run(FreshOwner, events[..k]).tables.ops[id], Run(FreshOwner, events).tables.ops[id];
            && (a.phase.Unknown? ==> c.phase.Unknown?)
            && (a.phase.Completed? ==> c.phase.Completed? && c.status == a.status)
            && (a.receipt.Some? ==> c.receipt == a.receipt || (c.receipt.None? && c.phase.Completed?))
  {
    if k == |events| {
      assert events[..k] == events;
    } else {
      var before := events[..|events| - 1];
      assert before[..k] == events[..k];
      PhasesAbsorb(before, k, id);
      RunKeeps(before);
      RunKeeps(events[..k]);
      StepMovesRows(Run(FreshOwner, before), events[|events| - 1], id);
    }
  }

  /**
   * In every history, crash between two transactions included: a receipt exists exactly
   * in the two pending-outcome phases, completion has a running status with a connection,
   * and the public status is what the operation row implies, its update time aside.
   */
  lemma {:induction false} StatusIsCrashConsistent(events: seq<OwnerEvent>, id: string)
    requires id in Run(FreshOwner, events).tables.ops
    ensures var j := Run(FreshOwner, events).tables;
            var row := j.ops[id];
            && (row.receipt.Some? <==> row.phase.OutcomePendingComplete? || row.phase.PendingReconcile?)
            && (row.phase.Completed? ==> Healthy(row.status))
            && var shown := StatusFrom(j, row.scope.bindingId, Some(id));
               IsNewest(j, row.scope.bindingId, id) && shown == Implied(id, row, shown.updatedAt)
  {
    RunKeeps(events);
    var j := Run(FreshOwner, events).tables;
    RowFits(j, id);
    assert IsNewest(j, j.ops[id].scope.bindingId, id);
    StatusIsImplied(j, id, id);
  }
}
