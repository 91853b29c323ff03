/**
 * The package-binding journal: one table of operations, one table of owner states, and
 * the transactions that change them together.
 */
module Journal {
  import opened Prelude

  /** The owner state calls a completed operation ACTIVE; here both are Completed. */
  datatype Phase = Intent | OutcomePendingComplete | PendingReconcile | Unknown | Completed

  datatype RuntimeStatus = RuntimeStatus(
    generation: int, state: string, failureCode: Option<string>, connectionRef: Option<string>)

  datatype Receipt = Receipt(token: string, catalogGeneration: int, gateGeneration: int)

  datatype Scope = Scope(bindingId: string, packageId: string, installationId: string)

  datatype Row = Row(
    scope: Scope, phase: Phase, status: Option<RuntimeStatus>, receipt: Option<Receipt>,
    blocker: Option<string>, createdAt: nat, updatedAt: nat)

  datatype OwnerState = OwnerState(
    packageId: string, installationId: string, requestId: string, phase: Phase,
    status: Option<RuntimeStatus>, blocker: Option<string>, updatedAt: nat)

  datatype Tables = Tables(ops: map<string, Row>, states: map<string, OwnerState>)

  const EmptyTables := Tables(map[], map[])

  datatype JournalError =
    | IdempotencyConflict | ActiveConflict | OperationPending | IntentConflict
    | PhaseInvalid | ReceiptConflict | UnknownRequest | OutcomeMissing | OutcomeInvalid

  datatype BeginReply = Reserved | Existing(phase: Phase) | AlreadyActive

  // ----- The transactions on table values -----

  /** The state row a transaction writes beside its operation row. */
  function StateOf(requestId: string, row: Row): OwnerState {
    OwnerState(row.scope.packageId, row.scope.installationId, requestId, row.phase, row.status, row.blocker, row.updatedAt)
  }

  function WithRow(j: Tables, requestId: string, row: Row): Tables {
    Tables(j.ops[requestId := row], j.states[row.scope.bindingId := StateOf(requestId, row)])
  }

  predicate HasPending(j: Tables, bindingId: string) {
    exists id | id in j.ops :: j.ops[id].scope.bindingId == bindingId && !j.ops[id].phase.Completed?
  }

  function BeginReplyOf(j: Tables, requestId: string, scope: Scope): Result<BeginReply, JournalError> {
    if requestId in j.ops then
      if j.ops[requestId].scope != scope then Err(IdempotencyConflict) else Ok(Existing(j.ops[requestId].phase))
    else if scope.bindingId in j.states && j.states[scope.bindingId].phase.Completed? then
      if j.states[scope.bindingId].installationId == scope.installationId then Ok(AlreadyActive) else Err(ActiveConflict)
    else if HasPending(j, scope.bindingId) then Err(OperationPending)
    else Ok(Reserved)
  }

  const ActivationPending := "PACKAGE_BINDING_ACTIVATION_PENDING"

  function IntentRow(scope: Scope, now: nat): Row {
    Row(scope, Intent, None, None, Some(ActivationPending), now, now)
  }

  function Begun(j: Tables, requestId: string, scope: Scope, now: nat): Tables {
    if BeginReplyOf(j, requestId, scope) == Ok(Reserved) then WithRow(j, requestId, IntentRow(scope, now)) else j
  }

  predicate IntentMatches(j: Tables, requestId: string, scope: Scope) {
    requestId in j.ops && j.ops[requestId].scope == scope && j.ops[requestId].phase.Intent?
  }

  predicate Recordable(j: Tables, requestId: string, scope: Scope, receipt: Receipt) {
    && requestId in j.ops && j.ops[requestId].scope == scope
    && !j.ops[requestId].phase.Unknown? && !j.ops[requestId].phase.Completed?
    && (j.ops[requestId].receipt.Some? ==> j.ops[requestId].receipt.value == receipt)
  }

  function Recorded(j: Tables, requestId: string, scope: Scope, status: Option<RuntimeStatus>, receipt: Receipt,
                    phase: Phase, blocker: Option<string>, now: nat): Tables
  {
    if (phase.OutcomePendingComplete? || phase.PendingReconcile?) && Recordable(j, requestId, scope, receipt)
    then WithRow(j, requestId, j.ops[requestId].(phase := phase, status := status, receipt := Some(receipt),
                                                 blocker := blocker, updatedAt := now))
    else j
  }

  predicate Markable(j: Tables, requestId: string) {
    && requestId in j.ops && j.ops[requestId].receipt.None?
    && (j.ops[requestId].phase.Intent? || j.ops[requestId].phase.Unknown?)
  }

  /** First transaction of mark-unknown: the operation row only. */
  function MarkedRow(j: Tables, requestId: string, blocker: string, now: nat): Tables {
    if Markable(j, requestId)
    then j.(ops := j.ops[requestId := j.ops[requestId].(phase := Unknown, blocker := Some(blocker), updatedAt := now)])
    else j
  }

  /** Second transaction of mark-unknown: the owner state follows. */
  function MarkedState(j: Tables, requestId: string, scope: Scope, blocker: string, now: nat): Tables {
    j.(states := j.states[scope.bindingId :=
                            OwnerState(scope.packageId, scope.installationId, requestId, Unknown, None, Some(blocker), now)])
  }

  predicate Healthy(status: Option<RuntimeStatus>) {
    status.Some? && status.value.state == "RUNNING" && status.value.connectionRef.Some? && status.value.connectionRef.value != ""
  }

  predicate Completable(j: Tables, requestId: string) {
    && requestId in j.ops
    && (j.ops[requestId].phase.OutcomePendingComplete? || j.ops[requestId].phase.Completed?)
    && Healthy(j.ops[requestId].status)
  }

  function Finished(j: Tables, requestId: string, now: nat): Tables {
    if Completable(j, requestId)
    then WithRow(j, requestId, j.ops[requestId].(phase := Completed, receipt := None, blocker := None, updatedAt := now))
    else j
  }

  // ----- The public status -----

  datatype PublicStatus = PublicStatus(
    requestId: Option<string>, installationId: Option<string>, phase: Option<Phase>,
    runtimeState: Option<string>, runtimeGeneration: Option<int>, blocker: Option<string>, updatedAt: Option<nat>)

  const Unbound := PublicStatus(None, None, None, None, None, Some("PACKAGE_BINDING_NOT_INITIALIZED"), None)

  /** The newest operation of a binding comes first. */
  predicate IsNewest(j: Tables, bindingId: string, id: string) {
    && id in j.ops && j.ops[id].scope.bindingId == bindingId
    && forall other | other in j.ops && j.ops[other].scope.bindingId == bindingId ::
         || j.ops[other].updatedAt < j.ops[id].updatedAt
         || (j.ops[other].updatedAt == j.ops[id].updatedAt && j.ops[other].createdAt <= j.ops[id].createdAt)
  }

  function StatusFrom(j: Tables, bindingId: string, newest: Option<string>): PublicStatus
    requires newest.Some? ==> newest.value in j.ops
  {
    if bindingId !in j.states then
      if newest.None? then Unbound
      else
        var row := j.ops[newest.value];
        PublicStatus(newest, Some(row.scope.installationId), Some(row.phase), None, None, row.blocker, None)
    else
      var state := j.states[bindingId];
      var state', generation := if state.status.None? then None else Some(state.status.value.state),
                                if state.status.None? then None else Some(state.status.value.generation);
      if newest.None? then
        PublicStatus(Some(state.requestId), Some(state.installationId), Some(state.phase), state', generation,
                     state.blocker, Some(state.updatedAt))
      else
        var row := j.ops[newest.value];
        PublicStatus(newest, Some(row.scope.installationId), Some(row.phase), state', generation,
                     if row.phase.Completed? then state.blocker else row.blocker, Some(state.updatedAt))
  }

  /** What the operation row alone implies, the update time aside. */
  function Implied(requestId: string, row: Row, updatedAt: Option<nat>): PublicStatus {
    PublicStatus(Some(requestId), Some(row.scope.installationId), Some(row.phase),
                 if row.status.None? then None else Some(row.status.value.state),
                 if row.status.None? then None else Some(row.status.value.generation),
                 row.blocker, updatedAt)
  }

  // ----- The store object -----

  class ProductStore {
    var ops: map<string, Row>
    var states: map<string, OwnerState>

    ghost function View(): Tables
      reads this
    {
      Tables(ops, states)
    }

    constructor ()
      ensures View() == EmptyTables
    {
      ops, states := map[], map[];
    }

    method WriteState(requestId: string, row: Row)
      modifies this`states
      ensures states == old(states)[row.scope.bindingId := StateOf(requestId, row)]
    {
      states := states[row.scope.bindingId := StateOf(requestId, row)];
    }

    /**
     * A known request gets its row's phase, or a conflict if it was reserved for another
     * scope. A new one finds its binding completed, for this installation or for another,
     * or finds another operation unfinished, or is reserved with a bare intent.
     */
    method BeginOperation(requestId: string, scope: Scope, now: nat) returns (r: Result<BeginReply, JournalError>)
      modifies this
      ensures r == BeginReplyOf(old(View()), requestId, scope)
      ensures View() == Begun(old(View()), requestId, scope, now)
      ensures requestId in old(ops) ==>
                r == if old(ops)[requestId].scope == scope then Ok(Existing(old(ops)[requestId].phase)) else Err(IdempotencyConflict)
      ensures r == Err(IdempotencyConflict) <==> requestId in old(ops) && old(ops)[requestId].scope != scope
      ensures r.Ok? && r.value.Existing? <==> requestId in old(ops) && old(ops)[requestId].scope == scope
      ensures var active := requestId !in old(ops) && scope.bindingId in old(states) && old(states)[scope.bindingId].phase == Completed;
              && (r == Ok(AlreadyActive) <==> active && old(states)[scope.bindingId].installationId == scope.installationId)
              && (r == Err(ActiveConflict) <==> active && old(states)[scope.bindingId].installationId != scope.installationId)
              && (r == Err(OperationPending) <==>
                    requestId !in old(ops) && !active
                    && exists id | id in old(ops) :: old(ops)[id].scope.bindingId == scope.bindingId && old(ops)[id].phase != Completed)
      ensures r == Ok(Reserved) ==>
                var row := Row(scope, Intent, None, None, Some("PACKAGE_BINDING_ACTIVATION_PENDING"), now, now);
                && requestId !in old(ops) && ops == old(ops)[requestId := row]
                && states == old(states)[scope.bindingId :=
                     OwnerState(scope.packageId, scope.installationId, requestId, Intent, None, row.blocker, now)]
      ensures r != Ok(Reserved) ==> View() == old(View())
    {
      if requestId in ops {
        if ops[requestId].scope != scope {
          return Err(IdempotencyConflict);
        }
        return Ok(Existing(ops[requestId].phase));
      }
      if scope.bindingId in states && states[scope.bindingId].phase.Completed? {
        if states[scope.bindingId].installationId == scope.installationId {
          return Ok(AlreadyActive);
        }
        return Err(ActiveConflict);
      }
      if exists id | id in ops :: ops[id].scope.bindingId == scope.bindingId && !ops[id].phase.Completed? {
        return Err(OperationPending);
      }
      ops := ops[requestId := IntentRow(scope, now)];
      WriteState(requestId, IntentRow(scope, now));
      return Ok(Reserved);
    }

    /** The check before the remote call: the reserved intent still stands. */
    method VerifyIntent(requestId: string, scope: Scope) returns (error: Option<JournalError>)
      ensures error == if IntentMatches(Tables(ops, states), requestId, scope) then None else Some(IntentConflict)
      ensures error.None? <==> requestId in ops && ops[requestId].scope == scope && ops[requestId].phase == Intent
    {
      if requestId !in ops || ops[requestId].scope != scope || !ops[requestId].phase.Intent? {
        return Some(IntentConflict);
      }
      return None;
    }

    method RecordOutcome(requestId: string, scope: Scope, status: Option<RuntimeStatus>, receipt: Receipt,
                         phase: Phase, blocker: Option<string>, now: nat) returns (error: Option<JournalError>)
      modifies this
      ensures View() == Recorded(old(View()), requestId, scope, status, receipt, phase, blocker, now)
      ensures error.Some? ==> View() == old(View())
      ensures error == Some(PhaseInvalid) <==> phase !in {OutcomePendingComplete, PendingReconcile}
      ensures phase in {OutcomePendingComplete, PendingReconcile} ==>
                (error == Some(ReceiptConflict) <==>
                   || requestId !in old(ops) || old(ops)[requestId].scope != scope || old(ops)[requestId].phase in {Unknown, Completed}
                   || (old(ops)[requestId].receipt.Some? && old(ops)[requestId].receipt != Some(receipt)))
      ensures error.None? || error == Some(PhaseInvalid) || error == Some(ReceiptConflict)
      ensures error.None? ==>
                var row := Row(scope, phase, status, Some(receipt), blocker, old(ops)[requestId].createdAt, now);
                && ops == old(ops)[requestId := row]
                && states == old(states)[scope.bindingId :=
                     OwnerState(scope.packageId, scope.installationId, requestId, phase, status, blocker, now)]
    {
      if !phase.OutcomePendingComplete? && !phase.PendingReconcile? {
        return Some(PhaseInvalid);
      }
      if requestId !in ops || ops[requestId].scope != scope || ops[requestId].phase.Unknown?
         || ops[requestId].phase.Completed?
         || (ops[requestId].receipt.Some? && ops[requestId].receipt.value != receipt) {
        return Some(ReceiptConflict);
      }
      var row := ops[requestId].(phase := phase, status := status, receipt := Some(receipt),
                                 blocker := blocker, updatedAt := now);
      ops := ops[requestId := row];
      WriteState(requestId, row);
      return None;
    }

    /** Two transactions; a failing second one leaves the journal authoritative. */
    method MarkUnknown(requestId: string, blocker: string, secondCommits: bool, now: nat) returns (error: Option<JournalError>)
      modifies this
      ensures error == if requestId !in old(ops) then Some(UnknownRequest) else None
      ensures requestId in old(ops) && old(ops)[requestId].receipt.None? && old(ops)[requestId].phase in {Intent, Unknown} ==>
                var row := old(ops)[requestId];
                && ops == old(ops)[requestId := row.(phase := Unknown, blocker := Some(blocker), updatedAt := now)]
                && states == if secondCommits
                             then old(states)[row.scope.bindingId :=
                                    OwnerState(row.scope.packageId, row.scope.installationId, requestId, Unknown, None, Some(blocker), now)]
                             else old(states)
      ensures requestId !in old(ops) || old(ops)[requestId].receipt.Some? || old(ops)[requestId].phase !in {Intent, Unknown} ==>
                View() == old(View())
      ensures View() == if !old(Markable(View(), requestId)) then old(View())
                        else if !secondCommits then MarkedRow(old(View()), requestId, blocker, now)
                        else MarkedState(MarkedRow(old(View()), requestId, blocker, now), requestId,
                                         old(ops)[requestId].scope, blocker, now)
    {
      if requestId !in ops {
        return Some(UnknownRequest);
      }
      var row := ops[requestId];
      if row.receipt.Some? || !(row.phase.Intent? || row.phase.Unknown?) {
        return None;
      }
      ops := ops[requestId := row.(phase := Unknown, blocker := Some(blocker), updatedAt := now)];
      if secondCommits {
        states := states[row.scope.bindingId :=
                           OwnerState(row.scope.packageId, row.scope.installationId, requestId, Unknown, None, Some(blocker), now)];
      }
      return None;
    }

    method MarkCompleted(requestId: string, now: nat) returns (error: Option<JournalError>)
      modifies this
      ensures View() == Finished(old(View()), requestId, now)
      ensures error == Some(OutcomeMissing) <==>
              requestId !in old(ops) || old(ops)[requestId].phase !in {OutcomePendingComplete, Completed}
      ensures error == Some(OutcomeInvalid) <==>
              && requestId in old(ops) && old(ops)[requestId].phase in {OutcomePendingComplete, Completed}
              && var status := old(ops)[requestId].status;
                 status.None? || status.value.state != "RUNNING" || status.value.connectionRef in {None, Some("")}
      ensures error.Some? ==> View() == old(View()) && (error == Some(OutcomeMissing) || error == Some(OutcomeInvalid))
      ensures error.None? ==>
                var row := old(ops)[requestId].(phase := Completed, receipt := None, blocker := None, updatedAt := now);
                && ops == old(ops)[requestId := row]
                && states == old(states)[row.scope.bindingId :=
                     OwnerState(row.scope.packageId, row.scope.installationId, requestId, Completed, row.status, None, now)]
    {
      if requestId !in ops || !(ops[requestId].phase.OutcomePendingComplete? || ops[requestId].phase.Completed?) {
        return Some(OutcomeMissing);
      }
      var status := ops[requestId].status;
      if status.None? || status.value.state != "RUNNING" || status.value.connectionRef.GetOr("") == "" {
        return Some(OutcomeInvalid);
      }
      var row := ops[requestId].(phase := Completed, receipt := None, blocker := None, updatedAt := now);
      ops := ops[requestId := row];
      WriteState(requestId, row);
      return None;
    }

    /** The public projection: the state row, overlaid with the newest operation row. */
    method PackageBindingStatus(bindingId: string) returns (shown: PublicStatus)
      requires JournalInv(View())
      ensures forall id | id in ops && ops[id].scope.bindingId == bindingId :: shown == Implied(id, ops[id], shown.updatedAt)
      ensures forall id | id in ops && ops[id].scope.bindingId == bindingId ::
                && shown.requestId == Some(id) && shown.installationId == Some(ops[id].scope.installationId)
                && shown.phase == Some(ops[id].phase) && shown.blocker == ops[id].blocker
                && (ops[id].status.None? ==> shown.runtimeState == None && shown.runtimeGeneration == None)
                && (ops[id].status.Some? ==> shown.runtimeState == Some(ops[id].status.value.state)
                                             && shown.runtimeGeneration == Some(ops[id].status.value.generation))
                && bindingId in states && shown.updatedAt == Some(states[bindingId].updatedAt)
      ensures (forall id | id in ops :: ops[id].scope.bindingId != bindingId) ==>
                shown == PublicStatus(None, None, None, None, None, Some("PACKAGE_BINDING_NOT_INITIALIZED"), None)
    {
      if exists id | id in ops :: ops[id].scope.bindingId == bindingId {
        var newest :| newest in ops && ops[newest].scope.bindingId == bindingId
                      && forall other | other in ops && ops[other].scope.bindingId == bindingId ::
                           || ops[other].updatedAt < ops[newest].updatedAt
                           || (ops[other].updatedAt == ops[newest].updatedAt && ops[other].createdAt <= ops[newest].createdAt);
        shown := StatusFrom(Tables(ops, states), bindingId, Some(newest));
        StatusIsImplied(View(), newest, newest);
      } else {
        shown := StatusFrom(Tables(ops, states), bindingId, None);
        UnboundWithoutOperation(View(), bindingId);
      }
    }
  }

  // ----- What every transaction keeps -----

  /** A receipt exists exactly in the two pending-outcome phases; completion needs a running
      status with a connection. */
  predicate RowOk(row: Row) {
    && (row.receipt.Some? <==> row.phase.OutcomePendingComplete? || row.phase.PendingReconcile?)
    && (row.phase.OutcomePendingComplete? || row.phase.Completed? ==> Healthy(row.status))
    && (row.phase.Intent? || row.phase.Unknown? ==> row.status.None?)
    && (row.phase.Completed? ==> row.blocker.None?)
  }

  /** The owner state equals the row's projection, except that an unknown row may still
      show the intent. */
  predicate StateFits(j: Tables, id: string)
    requires id in j.ops
  {
    var row := j.ops[id];
    && row.scope.bindingId in j.states
    && var state := j.states[row.scope.bindingId];
    && state.requestId == id && state.installationId == row.scope.installationId && state.packageId == row.scope.packageId
    && state.status == row.status
    && (state.phase == row.phase || (row.phase.Unknown? && state.phase.Intent?))
    && (row.phase.Completed? ==> state.blocker.None?)
  }

  predicate OneRowPerBinding(j: Tables) {
    forall a, b | a in j.ops && b in j.ops && j.ops[a].scope.bindingId == j.ops[b].scope.bindingId :: a == b
  }

  predicate JournalInv(j: Tables) {
    && OneRowPerBinding(j)
    && (forall id {:trigger StateFits(j, id)} | id in j.ops :: RowOk(j.ops[id]) && StateFits(j, id))
    && (forall b | b in j.states :: j.states[b].requestId in j.ops && j.ops[j.states[b].requestId].scope.bindingId == b)
  }

  /** Writing a row and its state together keeps the journal, if the binding has no other row. */
  lemma WithRowKeeps(j: Tables, id: string, row: Row)
    requires JournalInv(j) && RowOk(row)
    requires forall other | other in j.ops && j.ops[other].scope.bindingId == row.scope.bindingId :: other == id
    requires id in j.ops ==> j.ops[id].scope == row.scope
    ensures JournalInv(WithRow(j, id, row))
  {
    var v := WithRow(j, id, row);
    forall other | other in v.ops ensures RowOk(v.ops[other]) && StateFits(v, other) {
      if other != id { assert StateFits(j, other); }
    }
  }

  lemma BeginKeeps(j: Tables, requestId: string, scope: Scope, now: nat)
    requires JournalInv(j)
    ensures JournalInv(Begun(j, requestId, scope, now))
  {
    if BeginReplyOf(j, requestId, scope) == Ok(Reserved) {
      forall other | other in j.ops ensures j.ops[other].scope.bindingId != scope.bindingId {
        assert RowOk(j.ops[other]) && StateFits(j, other);
      }
      WithRowKeeps(j, requestId, IntentRow(scope, now));
    }
  }

  lemma RecordKeeps(j: Tables, requestId: string, scope: Scope, status: Option<RuntimeStatus>, receipt: Receipt,
                    phase: Phase, blocker: Option<string>, now: nat)
    requires JournalInv(j) && (phase.OutcomePendingComplete? ==> Healthy(status))
    ensures JournalInv(Recorded(j, requestId, scope, status, receipt, phase, blocker, now))
  {
    if (phase.OutcomePendingComplete? || phase.PendingReconcile?) && Recordable(j, requestId, scope, receipt) {
      WithRowKeeps(j, requestId, j.ops[requestId].(phase := phase, status := status, receipt := Some(receipt),
                                                   blocker := blocker, updatedAt := now));
    }
  }

  lemma MarkRowKeeps(j: Tables, requestId: string, blocker: string, now: nat)
    requires JournalInv(j)
    ensures JournalInv(MarkedRow(j, requestId, blocker, now))
  {
    var v := MarkedRow(j, requestId, blocker, now);
    if Markable(j, requestId) {
      forall other | other in v.ops ensures RowOk(v.ops[other]) && StateFits(v, other) {
        assert RowOk(j.ops[other]) && StateFits(j, other);
      }
    }
  }

  /** The second transaction finds the row its first one left. */
  lemma MarkStateKeeps(j: Tables, requestId: string, scope: Scope, blocker: string, now: nat)
    requires JournalInv(j) && requestId in j.ops && j.ops[requestId].scope == scope && j.ops[requestId].phase.Unknown?
    ensures JournalInv(MarkedState(j, requestId, scope, blocker, now))
  {
    var v := MarkedState(j, requestId, scope, blocker, now);
    forall other | other in v.ops ensures RowOk(v.ops[other]) && StateFits(v, other) {
      assert RowOk(j.ops[other]) && StateFits(j, other);
    }
  }

  lemma FinishKeeps(j: Tables, requestId: string, now: nat)
    requires JournalInv(j)
    ensures JournalInv(Finished(j, requestId, now))
  {
    if Completable(j, requestId) {
      assert StateFits(j, requestId);
      WithRowKeeps(j, requestId, j.ops[requestId].(phase := Completed, receipt := None, blocker := None, updatedAt := now));
    }
  }

  // ----- How an operation row moves -----

  /** Unknown and completed rows absorb; a receipt is written once and erased only by
      completion; a pending outcome never falls back. */
  predicate RowMoves(a: Row, b: Row) {
    && a.scope == b.scope && a.createdAt == b.createdAt
    && (a.phase.Unknown? ==> b.phase.Unknown?)
    && (a.phase.Completed? ==> b.phase.Completed? && b.status == a.status)
    && (a.phase.OutcomePendingComplete? || a.phase.PendingReconcile? ==> !b.phase.Intent? && !b.phase.Unknown?)
    && (a.phase.Intent? ==> !b.phase.Completed?)
    && (a.receipt.Some? ==> b.receipt == a.receipt || (b.receipt.None? && b.phase.Completed?))
    && (a.receipt.None? && b.receipt.Some? ==> a.phase.Intent?)
  }

  /** One transaction: rows stay, and at most the named one moves. */
  predicate TablesMove(j: Tables, v: Tables, id: string) {
    && (forall k | k in j.ops :: k in v.ops && RowMoves(j.ops[k], v.ops[k]))
    && (forall k | k in v.ops && k != id :: k in j.ops && v.ops[k] == j.ops[k])
  }

  lemma RowFits(j: Tables, id: string)
    requires JournalInv(j) && id in j.ops
    ensures StateFits(j, id) && RowOk(j.ops[id])
  {
    assert StateFits(j, id);
  }

  lemma BeginMovesRows(j: Tables, requestId: string, scope: Scope, now: nat)
    requires JournalInv(j)
    ensures TablesMove(j, Begun(j, requestId, scope, now), requestId)
  {
  }

  lemma RecordMovesRows(j: Tables, requestId: string, scope: Scope, status: Option<RuntimeStatus>, receipt: Receipt,
                        phase: Phase, blocker: Option<string>, now: nat)
    requires JournalInv(j)
    ensures TablesMove(j, Recorded(j, requestId, scope, status, receipt, phase, blocker, now), requestId)
  {
    if requestId in j.ops { RowFits(j, requestId); }
  }

  lemma MarkMovesRows(j: Tables, requestId: string, blocker: string, now: nat)
    requires JournalInv(j)
    ensures TablesMove(j, MarkedRow(j, requestId, blocker, now), requestId)
  {
    if requestId in j.ops { RowFits(j, requestId); }
  }

  lemma FinishMovesRows(j: Tables, requestId: string, now: nat)
    requires JournalInv(j)
    ensures TablesMove(j, Finished(j, requestId, now), requestId)
  {
    if requestId in j.ops { RowFits(j, requestId); }
  }

  /**
   * The public status of a binding is what its one operation row implies, the update time
   * aside, even between the two transactions that mark it unknown.
   */
  lemma StatusIsImplied(j: Tables, id: string, newest: string)
    requires JournalInv(j) && id in j.ops && IsNewest(j, j.ops[id].scope.bindingId, newest)
    ensures newest == id
    ensures var shown := StatusFrom(j, j.ops[id].scope.bindingId, Some(newest));
            && shown == Implied(id, j.ops[id], shown.updatedAt)
            && j.ops[id].scope.bindingId in j.states && shown.updatedAt == Some(j.states[j.ops[id].scope.bindingId].updatedAt)
  {
    assert StateFits(j, id);
    assert RowOk(j.ops[id]);
  }

  /** A binding without an operation shows as unbound. */
  lemma UnboundWithoutOperation(j: Tables, bindingId: string)
    requires JournalInv(j) && forall id | id in j.ops :: j.ops[id].scope.bindingId != bindingId
    ensures StatusFrom(j, bindingId, None) == Unbound
  {
  }
}
