/**
 * What undisturbed calls of the binding owner come to: an activation and a reconcile end in
 * the phase that the runtime's answer justifies.
 */
module BindingCalls {
  import opened Prelude
  import opened Journal
  import opened BindingOwner

  // ----- Verdicts -----

  /** The report names this binding and installation, and its fields are well formed. */
  predicate Reports(raw: RawStatus, scope: Scope) {
    && raw.RawStatus? && raw.bindingId == scope.bindingId && raw.installationId == scope.installationId
    && raw.generation > 0 && raw.state in {"RUNNING", "STOPPED", "FAILED"} && raw.textsValid
  }

  /** It runs, reports no failure, and can be connected to. */
  predicate RunsWell(raw: RawStatus, scope: Scope) {
    && Reports(raw, scope) && raw.state == "RUNNING"
    && raw.failureCode.None? && raw.failureMessage.None? && raw.connectionRef !in {None, Some("")}
  }

  /** A verdict is healthy exactly for such a report; otherwise it says what is wrong with it. */
  lemma VerdictTells(raw: RawStatus, scope: Scope)
    ensures var v := StatusOutcome(raw, scope);
            && (v.healthy <==> RunsWell(raw, scope))
            && v.snapshot == (if Reports(raw, scope)
                              then Some(RuntimeStatus(raw.generation, raw.state, raw.failureCode, raw.connectionRef)) else None)
            && v.blocker == (if RunsWell(raw, scope) then "PACKAGE_RUNTIME_COMPLETE_PENDING"
                             else if Reports(raw, scope) then "PACKAGE_RUNTIME_BINDING_NOT_HEALTHY"
                             else if raw.RawStatus? && (raw.bindingId != scope.bindingId || raw.installationId != scope.installationId)
                             then "PACKAGE_RUNTIME_SCOPE_MISMATCH" else "PACKAGE_RUNTIME_STATUS_INVALID")
  {
  }

  /** The receipt is well formed and of this very request. */
  predicate OwnReceipt(r: SdkReceipt, requestId: string, scope: Scope) {
    r.wellFormed && r.requestId == requestId && r.scope == scope && scope.packageId == "cyrene.training.llama-factory"
  }

  // ----- Activating -----

  lemma RunSnoc(o: Owner, events: seq<OwnerEvent>, e: OwnerEvent)
    ensures Run(o, events + [e]) == Step(Run(o, events), e)
  {
    assert (events + [e])[..|events|] == events;
  }

  /** Nothing is known of the request or of its binding, and the thread is free. */
  ghost predicate Unbegun(o: Owner, t: nat, requestId: string, scope: Scope) {
    && OwnerInv(o) && CallOf(o, t).NoCall? && scope.packageId == "cyrene.training.llama-factory"
    && requestId !in o.tables.ops && forall id | id in o.tables.ops :: o.tables.ops[id].scope.bindingId != scope.bindingId
  }

  function Sending(t: nat, requestId: string, scope: Scope): seq<OwnerEvent> {
    [Activate(t, requestId, scope)] + [Verify(t)] + [SendActivate(t)]
  }

  /** The owner once Activate was sent for a reserved request. */
  function SentFor(o: Owner, t: nat, requestId: string, scope: Scope): Owner {
    Owner(WithRow(o.tables, requestId, IntentRow(scope, o.clock)), o.clock + 1,
          o.calls[t := Activated(requestId, scope)], o.activations + [Activation(scope.bindingId, requestId)])
  }

  lemma Reserves(o: Owner, t: nat, requestId: string, scope: Scope)
    requires Unbegun(o, t, requestId, scope)
    ensures Step(o, Activate(t, requestId, scope)) ==
            SentFor(o, t, requestId, scope).(calls := o.calls[t := Reserving(requestId, scope)], activations := o.activations)
  {
    assert scope.bindingId !in o.tables.states;
  }

  lemma SentMovesOne(o: Owner, t: nat, requestId: string, scope: Scope)
    requires Unbegun(o, t, requestId, scope)
    ensures var v := SentFor(o, t, requestId, scope);
            && v.tables.ops - {requestId} == o.tables.ops - {requestId} && CallOf(v, t) == Activated(requestId, scope)
            && requestId in v.tables.ops && v.tables.ops[requestId] == IntentRow(scope, o.clock)
            && v.activations == o.activations + [Activation(scope.bindingId, requestId)]
  {
    hide OwnerInv;
    assert o.tables.ops[requestId := IntentRow(scope, o.clock)] - {requestId} == o.tables.ops - {requestId};
  }

  /** The verified intent is sent. */
  lemma VerifiesAndSends(v: Owner, t: nat, requestId: string, scope: Scope)
    requires CallOf(v, t) == Reserving(requestId, scope) && IntentMatches(v.tables, requestId, scope)
    ensures Step(Step(v, Verify(t)), SendActivate(t)) ==
            v.(calls := v.calls[t := Activated(requestId, scope)],
               activations := v.activations + [Activation(scope.bindingId, requestId)])
  {
    assert Step(v, Verify(t)) == To(v, t, Verified(requestId, scope));
    assert v.calls[t := Verified(requestId, scope)][t := Activated(requestId, scope)] == v.calls[t := Activated(requestId, scope)];
  }

  lemma {:induction false} Sends(o: Owner, t: nat, requestId: string, scope: Scope)
    requires Unbegun(o, t, requestId, scope)
    ensures Run(o, Sending(t, requestId, scope)) == SentFor(o, t, requestId, scope)
  {
    hide Step, OwnerInv;
    RunSnoc(o, [], Activate(t, requestId, scope));
    assert [] + [Activate(t, requestId, scope)] == [Activate(t, requestId, scope)];
    RunSnoc(o, [Activate(t, requestId, scope)], Verify(t));
    RunSnoc(o, [Activate(t, requestId, scope)] + [Verify(t)], SendActivate(t));
    Reserves(o, t, requestId, scope);
    SentMovesOne(o, t, requestId, scope);
    hide Run;
    var v := SentFor(o, t, requestId, scope).(calls := o.calls[t := Reserving(requestId, scope)], activations := o.activations);
    VerifiesAndSends(v, t, requestId, scope);
    assert o.calls[t := Reserving(requestId, scope)][t := Activated(requestId, scope)] == o.calls[t := Activated(requestId, scope)];
  }

  /** The binding's one operation row, and the owner state beside it. */
  predicate Shows(j: Tables, requestId: string, scope: Scope, phase: Phase, status: Option<RuntimeStatus>,
                  receipt: Option<Receipt>, blocker: Option<string>)
  {
    && requestId in j.ops && scope.bindingId in j.states
    && var row, state := j.ops[requestId], j.states[scope.bindingId];
       && row.scope == scope && row.phase == phase && row.status == status && row.receipt == receipt && row.blocker == blocker
       && state.requestId == requestId && state.installationId == scope.installationId && state.packageId == scope.packageId
       && state.phase == phase && state.status == status && state.blocker == blocker
  }

  /** The other rows stay as they were. */
  predicate OnlyMoves(j: Tables, v: Tables, requestId: string) {
    v.ops - {requestId} == j.ops - {requestId}
  }

  /** The call of t is over, and Activate was sent once more, or not at all. */
  predicate CallEnds(o: Owner, v: Owner, t: nat, sent: seq<Activation>) {
    CallOf(v, t).NoCall? && v.activations == o.activations + sent
  }

  lemma {:induction false} OutcomeStored(v: Owner, t: nat, requestId: string, scope: Scope, raw: RawStatus, receipt: SdkReceipt)
    requires CallOf(v, t) == Activated(requestId, scope) && OwnReceipt(receipt, requestId, scope)
    requires requestId in v.tables.ops && v.tables.ops[requestId].scope == scope
    requires v.tables.ops[requestId].phase.Intent? && v.tables.ops[requestId].receipt.None?
    ensures var u, out := Step(v, Persist(t, raw, receipt)), StatusOutcome(raw, scope);
            && Shows(u.tables, requestId, scope, if out.healthy then OutcomePendingComplete else PendingReconcile,
                     out.snapshot, Some(receipt.value), Some(out.blocker))
            && OnlyMoves(v.tables, u.tables, requestId) && u.activations == v.activations
            && CallOf(u, t) == if out.healthy then Saved(requestId, scope) else Checking(requestId, scope)
  {
    hide StatusOutcome;
    var u := Step(v, Persist(t, raw, receipt));
    assert v.tables.ops[requestId := u.tables.ops[requestId]] - {requestId} == v.tables.ops - {requestId};
  }

  function Activating(t: nat, requestId: string, scope: Scope, raw: RawStatus, receipt: SdkReceipt): seq<OwnerEvent> {
    Sending(t, requestId, scope) + [Persist(t, raw, receipt)]
    + if RunsWell(raw, scope) then [SdkReturned(t), Complete(t)] else [Check(t)]
  }

  lemma RunTwo(o: Owner, events: seq<OwnerEvent>, a: OwnerEvent, b: OwnerEvent)
    ensures Run(o, events + [a, b]) == Step(Step(Run(o, events), a), b)
  {
    RunSnoc(o, events, a);
    RunSnoc(o, events + [a], b);
    assert events + [a, b] == events + [a] + [b];
  }

  /** The return of the runtime client lets the owner complete a healthy outcome. */
  lemma {:induction false} Completes(u: Owner, t: nat, requestId: string, scope: Scope, status: Option<RuntimeStatus>,
                                     receipt: Option<Receipt>, blocker: Option<string>)
    requires CallOf(u, t) in {Saved(requestId, scope), ReadBack(requestId, scope)} && Healthy(status)
    requires Shows(u.tables, requestId, scope, OutcomePendingComplete, status, receipt, blocker)
    ensures var v := Step(Step(u, SdkReturned(t)), Complete(t));
            && Shows(v.tables, requestId, scope, Completed, status, None, None)
            && OnlyMoves(u.tables, v.tables, requestId) && CallEnds(u, v, t, [])
  {
    var v1 := Step(u, SdkReturned(t));
    assert v1.tables == u.tables;
    var v := Step(v1, Complete(t));
    assert u.tables.ops[requestId := v.tables.ops[requestId]] - {requestId} == u.tables.ops - {requestId};
  }

  /** An unhealthy outcome has its receipt, so the call ends there. */
  lemma {:induction false} Stays(u: Owner, t: nat, requestId: string, scope: Scope)
    requires CallOf(u, t) == Checking(requestId, scope) && requestId in u.tables.ops && u.tables.ops[requestId].receipt.Some?
    ensures Step(u, Check(t)) == To(u, t, NoCall)
  {
  }

  /**
   * An activation whose outcome the runtime hands over: with a report of a well running
   * binding it is COMPLETED with that report and without a receipt; with any other report it
   * is PENDING_RECONCILE with the receipt and the reason. Activate was sent once.
   */
  lemma {:induction false} ActivationEnds(o: Owner, t: nat, requestId: string, scope: Scope, raw: RawStatus, receipt: SdkReceipt)
    requires Unbegun(o, t, requestId, scope) && OwnReceipt(receipt, requestId, scope)
    ensures var v := Run(o, Activating(t, requestId, scope, raw, receipt));
            && CallEnds(o, v, t, [Activation(scope.bindingId, requestId)]) && OnlyMoves(o.tables, v.tables, requestId)
            && if RunsWell(raw, scope)
               then Shows(v.tables, requestId, scope, Completed,
                          Some(RuntimeStatus(raw.generation, "RUNNING", None, raw.connectionRef)), None, None)
               else Shows(v.tables, requestId, scope, PendingReconcile, StatusOutcome(raw, scope).snapshot,
                          Some(receipt.value), Some(StatusOutcome(raw, scope).blocker))
  {
    var sent := SentFor(o, t, requestId, scope);
    var recorded := Sending(t, requestId, scope) + [Persist(t, raw, receipt)];
    var out := StatusOutcome(raw, scope);
    Sends(o, t, requestId, scope);
    RunSnoc(o, Sending(t, requestId, scope), Persist(t, raw, receipt));
    SentMovesOne(o, t, requestId, scope);
    hide SentFor, WithRow;
    VerdictTells(raw, scope);
    HealthyVerdict(raw, scope);
    OutcomeStored(sent, t, requestId, scope, raw, receipt);
    hide Run, Step, StatusOutcome, OwnerInv, Sending, RunsWell, Reports;
    var u := Step(sent, Persist(t, raw, receipt));
    if RunsWell(raw, scope) {
      RunTwo(o, recorded, SdkReturned(t), Complete(t));
      Completes(u, t, requestId, scope, out.snapshot, Some(receipt.value), Some(out.blocker));
    } else {
      RunSnoc(o, recorded, Check(t));
      Stays(u, t, requestId, scope);
    }
  }

  // ----- An outcome with another receipt -----

  function Mistaking(t: nat, requestId: string, scope: Scope, raw: RawStatus, receipt: SdkReceipt): seq<OwnerEvent> {
    Sending(t, requestId, scope) + [Persist(t, raw, receipt)] + ([Check(t)] + [MarkRow(t), MarkState(t, true)])
  }

  /** An outcome whose receipt is malformed or of another request is not stored: the request is UNKNOWN. */
  lemma {:induction false} MistakenActivationEnds(o: Owner, t: nat, requestId: string, scope: Scope, raw: RawStatus, receipt: SdkReceipt)
    requires Unbegun(o, t, requestId, scope) && !OwnReceipt(receipt, requestId, scope)
    ensures var v := Run(o, Mistaking(t, requestId, scope, raw, receipt));
            && CallEnds(o, v, t, [Activation(scope.bindingId, requestId)]) && OnlyMoves(o.tables, v.tables, requestId)
            && Shows(v.tables, requestId, scope, Unknown, None, None, Some("PACKAGE_RUNTIME_OUTCOME_UNKNOWN"))
  {
    var sent := SentFor(o, t, requestId, scope);
    var refused := Sending(t, requestId, scope) + [Persist(t, raw, receipt)];
    Sends(o, t, requestId, scope);
    RunSnoc(o, Sending(t, requestId, scope), Persist(t, raw, receipt));
    SentMovesOne(o, t, requestId, scope);
    NotStored(sent, t, requestId, scope, raw, receipt);
    hide Run, Step, OwnerInv, Sending, SentFor, WithRow, OwnReceipt;
    RunSnoc(o, refused, Check(t));
    RunTwo(o, refused + [Check(t)], MarkRow(t), MarkState(t, true));
    assert refused + ([Check(t)] + [MarkRow(t), MarkState(t, true)]) == refused + [Check(t)] + [MarkRow(t), MarkState(t, true)];
    MarksUnknown(Run(o, refused), t, requestId, scope);
  }

  lemma NotStored(v: Owner, t: nat, requestId: string, scope: Scope, raw: RawStatus, receipt: SdkReceipt)
    requires CallOf(v, t) == Activated(requestId, scope) && !OwnReceipt(receipt, requestId, scope)
    ensures Step(v, Persist(t, raw, receipt)) == To(v, t, Checking(requestId, scope))
  {
    hide StatusOutcome;
  }

  // ----- A client that raises -----

  /** The request after the runtime client raised with, or without, a receipt of its own. */
  lemma {:induction false} RaiseStored(v: Owner, t: nat, requestId: string, scope: Scope, pending: Option<SdkReceipt>)
    requires CallOf(v, t) == Activated(requestId, scope)
    requires requestId in v.tables.ops && v.tables.ops[requestId].scope == scope
    requires v.tables.ops[requestId].phase.Intent? && v.tables.ops[requestId].receipt.None?
    ensures var u := Step(Step(v, SdkRaised(t, pending)), RecordPending(t));
            if pending.Some? && OwnReceipt(pending.value, requestId, scope)
            then
              && Shows(u.tables, requestId, scope, PendingReconcile, None, Some(pending.value.value),
                       Some("PACKAGE_RUNTIME_RECONCILE_REQUIRED"))
              && OnlyMoves(v.tables, u.tables, requestId) && CallEnds(v, u, t, [])
            else u.tables == v.tables && u.activations == v.activations && CallOf(u, t) == Checking(requestId, scope)
  {
    var v1 := Step(v, SdkRaised(t, pending));
    assert v1 == To(v, t, Failing(requestId, scope, pending));
    var u := Step(v1, RecordPending(t));
    if pending.Some? && OwnReceipt(pending.value, requestId, scope) {
      assert v.tables.ops[requestId := u.tables.ops[requestId]] - {requestId} == v.tables.ops - {requestId};
    }
  }

  lemma MarksRow(u: Owner, t: nat, requestId: string, scope: Scope)
    requires CallOf(u, t) == MarkingRow(requestId, scope) && Markable(u.tables, requestId)
    ensures var v := Step(u, MarkRow(t));
            && requestId in v.tables.ops && OnlyMoves(u.tables, v.tables, requestId) && v.activations == u.activations
            && v.tables.ops[requestId] == u.tables.ops[requestId].(phase := Unknown, blocker := Some("PACKAGE_RUNTIME_OUTCOME_UNKNOWN"),
                                                                   updatedAt := u.clock)
            && CallOf(v, t) == MarkingState(requestId, scope)
  {
    var row := u.tables.ops[requestId].(phase := Unknown, blocker := Some(OutcomeUnknown), updatedAt := u.clock);
    assert u.tables.ops[requestId := row] - {requestId} == u.tables.ops - {requestId};
  }

  lemma MarksState(u: Owner, t: nat, requestId: string, scope: Scope)
    requires CallOf(u, t) == MarkingState(requestId, scope) && requestId in u.tables.ops
    ensures var v := Step(u, MarkState(t, true));
            && v.tables.ops == u.tables.ops && v.activations == u.activations && CallOf(v, t).NoCall?
            && scope.bindingId in v.tables.states
            && v.tables.states[scope.bindingId] ==
               OwnerState(scope.packageId, scope.installationId, requestId, Unknown, None, Some("PACKAGE_RUNTIME_OUTCOME_UNKNOWN"), u.clock)
  {
  }

  /** A request that has no receipt is marked unknown, in two transactions. */
  lemma {:induction false} MarksUnknown(u: Owner, t: nat, requestId: string, scope: Scope)
    requires CallOf(u, t) == Checking(requestId, scope)
    requires requestId in u.tables.ops && u.tables.ops[requestId].scope == scope && u.tables.ops[requestId].status.None?
    requires u.tables.ops[requestId].phase.Intent? && u.tables.ops[requestId].receipt.None?
    ensures var v := Step(Step(Step(u, Check(t)), MarkRow(t)), MarkState(t, true));
            && Shows(v.tables, requestId, scope, Unknown, None, None, Some("PACKAGE_RUNTIME_OUTCOME_UNKNOWN"))
            && OnlyMoves(u.tables, v.tables, requestId) && CallEnds(u, v, t, [])
  {
    var v1 := Step(u, Check(t));
    assert v1 == To(u, t, MarkingRow(requestId, scope));
    hide Step;
    MarksRow(v1, t, requestId, scope);
    MarksState(Step(v1, MarkRow(t)), t, requestId, scope);
  }

  function Raising(t: nat, requestId: string, scope: Scope, pending: Option<SdkReceipt>): seq<OwnerEvent> {
    Sending(t, requestId, scope) + [SdkRaised(t, pending), RecordPending(t)]
    + if pending.Some? && OwnReceipt(pending.value, requestId, scope) then [] else [Check(t)] + [MarkRow(t), MarkState(t, true)]
  }

  /**
   * An activation whose client raises after Activate was sent: with a receipt of this very
   * request it waits for a reconcile with that receipt; without one its outcome is UNKNOWN.
   */
  lemma {:induction false} RaisedActivationEnds(o: Owner, t: nat, requestId: string, scope: Scope, pending: Option<SdkReceipt>)
    requires Unbegun(o, t, requestId, scope)
    ensures var v := Run(o, Raising(t, requestId, scope, pending));
            && CallEnds(o, v, t, [Activation(scope.bindingId, requestId)]) && OnlyMoves(o.tables, v.tables, requestId)
            && if pending.Some? && OwnReceipt(pending.value, requestId, scope)
               then Shows(v.tables, requestId, scope, PendingReconcile, None, Some(pending.value.value),
                          Some("PACKAGE_RUNTIME_RECONCILE_REQUIRED"))
               else Shows(v.tables, requestId, scope, Unknown, None, None, Some("PACKAGE_RUNTIME_OUTCOME_UNKNOWN"))
  {
    var sent := SentFor(o, t, requestId, scope);
    var raised := Sending(t, requestId, scope) + [SdkRaised(t, pending), RecordPending(t)];
    hide Run, Step, OwnerInv, Sending, OwnReceipt;
    Sends(o, t, requestId, scope);
    RunTwo(o, Sending(t, requestId, scope), SdkRaised(t, pending), RecordPending(t));
    SentMovesOne(o, t, requestId, scope);
    hide SentFor, WithRow;
    RaiseStored(sent, t, requestId, scope, pending);
    if pending.Some? && OwnReceipt(pending.value, requestId, scope) {
      assert raised + [] == raised;
    } else {
      var u := Run(o, raised);
      RunSnoc(o, raised, Check(t));
      RunTwo(o, raised + [Check(t)], MarkRow(t), MarkState(t, true));
      assert raised + ([Check(t)] + [MarkRow(t), MarkState(t, true)]) == raised + [Check(t)] + [MarkRow(t), MarkState(t, true)];
      MarksUnknown(u, t, requestId, scope);
    }
  }

  // ----- Reconciling -----

  function Reconciling(t: nat, requestId: string, bindingId: string, raw: RawStatus, same: SdkReceipt, installed: bool)
    : seq<OwnerEvent>
  {
    [Reconcile(t, requestId, bindingId)] + [PersistReconciled(t, raw, same, installed)]
  }

  /** The receipt that was read back is the stored one, of a package still installed and running well. */
  predicate Settles(row: Row, requestId: string, raw: RawStatus, same: SdkReceipt, installed: bool) {
    installed && OwnReceipt(same, requestId, row.scope) && Some(same.value) == row.receipt && RunsWell(raw, row.scope)
  }

  lemma {:induction false} StoresReadBack(o: Owner, t: nat, requestId: string, raw: RawStatus, same: SdkReceipt, installed: bool)
    requires requestId in o.tables.ops && o.tables.ops[requestId].receipt.Some?
    requires var row := o.tables.ops[requestId];
             && row.phase in {OutcomePendingComplete, PendingReconcile}
             && CallOf(o, t) == Reading(requestId, row.scope, row.receipt.value)
    ensures var row, u := o.tables.ops[requestId], Step(o, PersistReconciled(t, raw, same, installed));
            && u.activations == o.activations
            && if Settles(row, requestId, raw, same, installed)
               then
                 && Shows(u.tables, requestId, row.scope, OutcomePendingComplete, StatusOutcome(raw, row.scope).snapshot,
                          row.receipt, Some("PACKAGE_RUNTIME_COMPLETE_PENDING"))
                 && OnlyMoves(o.tables, u.tables, requestId) && CallOf(u, t) == ReadBack(requestId, row.scope)
               else u.tables == o.tables && CallOf(u, t).NoCall?
  {
    var row := o.tables.ops[requestId];
    VerdictTells(raw, row.scope);
    hide StatusOutcome, RunsWell;
    var u := Step(o, PersistReconciled(t, raw, same, installed));
    if Settles(row, requestId, raw, same, installed) {
      assert o.tables.ops[requestId := u.tables.ops[requestId]] - {requestId} == o.tables.ops - {requestId};
    }
  }

  lemma {:induction false} ReadsBack(o: Owner, t: nat, requestId: string, raw: RawStatus, same: SdkReceipt, installed: bool)
    requires CallOf(o, t).NoCall? && requestId in o.tables.ops
    requires var row := o.tables.ops[requestId];
             row.phase in {OutcomePendingComplete, PendingReconcile} && row.receipt.Some? && row.scope.packageId == PackageId
    ensures var row := o.tables.ops[requestId];
            var u := Run(o, Reconciling(t, requestId, row.scope.bindingId, raw, same, installed));
            if Settles(row, requestId, raw, same, installed)
            then
              && Shows(u.tables, requestId, row.scope, OutcomePendingComplete, StatusOutcome(raw, row.scope).snapshot,
                       row.receipt, Some("PACKAGE_RUNTIME_COMPLETE_PENDING"))
              && OnlyMoves(o.tables, u.tables, requestId) && u.activations == o.activations
              && CallOf(u, t) == ReadBack(requestId, row.scope)
            else u.tables == o.tables && CallEnds(o, u, t, [])
  {
    var row := o.tables.ops[requestId];
    var asked := To(o, t, Reading(requestId, row.scope, row.receipt.value));
    assert Step(o, Reconcile(t, requestId, row.scope.bindingId)) == asked;
    RunSnoc(o, [], Reconcile(t, requestId, row.scope.bindingId));
    assert [] + [Reconcile(t, requestId, row.scope.bindingId)] == [Reconcile(t, requestId, row.scope.bindingId)];
    RunSnoc(o, [Reconcile(t, requestId, row.scope.bindingId)], PersistReconciled(t, raw, same, installed));
    hide Run, Step;
    StoresReadBack(asked, t, requestId, raw, same, installed);
  }

  /**
   * A reconcile of a request that waits with its receipt: it completes the binding exactly
   * when the receipt read back is the stored one and the runtime reports a well running
   * binding of a package still installed, and otherwise leaves the tables. It never sends
   * Activate.
   */
  lemma {:induction false} ReconcileEnds(o: Owner, t: nat, requestId: string, raw: RawStatus, same: SdkReceipt, installed: bool)
    requires OwnerInv(o) && CallOf(o, t).NoCall? && requestId in o.tables.ops
    requires var row := o.tables.ops[requestId];
             row.phase in {OutcomePendingComplete, PendingReconcile} && row.scope.packageId == "cyrene.training.llama-factory"
    ensures var row := o.tables.ops[requestId];
            var u := Run(o, Reconciling(t, requestId, row.scope.bindingId, raw, same, installed));
            if Settles(row, requestId, raw, same, installed) then
              var v := Run(o, Reconciling(t, requestId, row.scope.bindingId, raw, same, installed) + [SdkReturned(t), Complete(t)]);
              && Shows(v.tables, requestId, row.scope, Completed,
                       Some(RuntimeStatus(raw.generation, "RUNNING", None, raw.connectionRef)), None, None)
              && OnlyMoves(o.tables, v.tables, requestId) && CallEnds(o, v, t, [])
            else u.tables == o.tables && CallEnds(o, u, t, [])
  {
    var row := o.tables.ops[requestId];
    var script := Reconciling(t, requestId, row.scope.bindingId, raw, same, installed);
    RowFits(o.tables, requestId);
    ReadsBack(o, t, requestId, raw, same, installed);
    VerdictTells(raw, row.scope);
    HealthyVerdict(raw, row.scope);
    hide Run, Step, OwnerInv, StatusOutcome, RunsWell, OwnReceipt, Reconciling;
    if Settles(row, requestId, raw, same, installed) {
      var u := Run(o, script);
      RunTwo(o, script, SdkReturned(t), Complete(t));
      assert RunsWell(raw, row.scope);
      WellIsRunning(raw, row.scope);
      Completes(u, t, requestId, row.scope, StatusOutcome(raw, row.scope).snapshot, row.receipt, Some("PACKAGE_RUNTIME_COMPLETE_PENDING"));
    }
  }

  lemma WellIsRunning(raw: RawStatus, scope: Scope)
    requires RunsWell(raw, scope)
    ensures StatusOutcome(raw, scope).snapshot == Some(RuntimeStatus(raw.generation, "RUNNING", None, raw.connectionRef))
  {
  }
}
