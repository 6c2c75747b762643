/**
 Every step of the protocol keeps the invariant.
 */
module StepProofs {
  import opened Model
  import opened Transactions
  import opened Approvals
  import opened Protocol
  import opened Invariant
  import opened TableProofs

  // ---------------------------------------------------------------- what a step may change

  predicate ReceiptsGrow(before: map<Uuid, Receipt>, after: map<Uuid, Receipt>) {
    forall k | k in before :: k in after && after[k] == before[k]
  }

  // Executions keep their input, and a finished one keeps its outcome.
  predicate ExecutionsGrow(before: Executions, after: Executions) {
    forall name | name in before ::
      && name in after && after[name].input == before[name].input
      && (before[name].outcome != Running ==> after[name] == before[name])
  }

  // Worker `w` either lost the row's lease or finds the row as it was.
  predicate Respects(before: map<Uuid, Message>, after: map<Uuid, Message>, w: WorkerId) {
    forall m | m in before ::
      && m in after && SameMessage(before[m], after[m])
      && (after[m].lockedBy == Some(w) ==> after[m] == before[m])
  }

  lemma GrowsReflexive(actions: map<ActionId, Action>)
    ensures Grows(actions, actions)
  {
  }

  // ---------------------------------------------------------------- frames

  lemma KnownStays(before: map<ActionId, Action>, after: map<ActionId, Action>, a: Action)
    requires Known(before, a) && Grows(before, after)
    ensures Known(after, a)
  {
    assert Past(before[a.id], after[a.id]);
    PastIsTransitive(a, before[a.id], after[a.id]);
  }

  lemma RequestStays(before: map<ActionId, Action>, after: map<ActionId, Action>,
                     receipts: map<Uuid, Receipt>, receipts': map<Uuid, Receipt>, request: Request)
    requires RequestOk(before, receipts, request) && Grows(before, after) && ReceiptsGrow(receipts, receipts')
    ensures RequestOk(after, receipts', request)
  {
    match request
    case ProposalReady(_) =>
    case ProposalRefused(_) =>
    case DecisionReady(d) => assert Past(before[d.id], after[d.id]);
    case SupplierCall(a, _) => KnownStays(before, after, a);
    case ExecutionReady(a, _, _) => KnownStays(before, after, a);
    case ExecutionRefused(id) => assert Past(before[id], after[id]);
    case Returned(answer) =>
      match answer
      case Stored(a) => KnownStays(before, after, a);
      case Receipted(id, _) => assert Past(before[id], after[id]);
      case Failure(_) =>
  }

  lemma RequestsStay(s: State, t: State, r: nat)
    requires RequestsOk(s) && Grows(s.db.actions, t.db.actions) && ReceiptsGrow(s.receipts, t.receipts)
    requires t.requests.Keys <= s.requests.Keys + {r}
    requires forall q | q in t.requests && q != r :: q in s.requests && t.requests[q] == s.requests[q]
    requires r in t.requests ==> RequestOk(t.db.actions, t.receipts, t.requests[r])
    ensures RequestsOk(t)
  {
    forall q | q in t.requests ensures RequestOk(t.db.actions, t.receipts, t.requests[q]) {
      if q != r {
        RequestStays(s.db.actions, t.db.actions, s.receipts, t.receipts, s.requests[q]);
      }
    }
  }

  lemma AllRequestsStay(s: State, t: State)
    requires RequestsOk(s) && Grows(s.db.actions, t.db.actions) && ReceiptsGrow(s.receipts, t.receipts)
    requires t.requests == s.requests
    ensures RequestsOk(t)
  {
    forall q | q in t.requests ensures RequestOk(t.db.actions, t.receipts, t.requests[q]) {
      RequestStays(s.db.actions, t.db.actions, s.receipts, t.receipts, s.requests[q]);
    }
  }

  lemma PhaseStays(cfg: Config, db: Database, db': Database, x: Executions, x': Executions, m: Message, phase: Phase)
    requires PhaseOk(cfg, db, x, m, phase) && Grows(db.actions, db'.actions) && ExecutionsGrow(x, x')
    ensures PhaseOk(cfg, db', x', m, phase)
  {
    if phase.Starting? {
      KnownStays(db.actions, db'.actions, phase.action);
    }
  }

  lemma SnapshotsStay(before: map<Uuid, Message>, after: map<Uuid, Message>, w: WorkerId, d: Dispatch)
    requires forall k | 0 <= k < |d.todo| :: SnapshotOk(before, w, d.now, d.todo[k])
    requires Respects(before, after, w)
    ensures forall k | 0 <= k < |d.todo| :: SnapshotOk(after, w, d.now, d.todo[k])
  {
    forall k | 0 <= k < |d.todo| ensures SnapshotOk(after, w, d.now, d.todo[k]) {
      var m := d.todo[k];
      assert SnapshotOk(before, w, d.now, m);
      assert SameMessage(before[m.id], after[m.id]);
    }
  }

  lemma DispatchStays(cfg: Config, db: Database, db': Database, x: Executions, x': Executions, w: WorkerId,
                      d: Dispatch)
    requires DispatchOk(cfg, db, x, w, d)
    requires Grows(db.actions, db'.actions) && ExecutionsGrow(x, x') && Respects(db.messages, db'.messages, w)
    ensures DispatchOk(cfg, db', x', w, d)
  {
    SnapshotsStay(db.messages, db'.messages, w, d);
    PhaseStays(cfg, db, db', x, x', d.todo[0], d.phase);
  }

  // Only worker `w` acts: the others stay as they were, and `w` is as required.
  lemma WorkersStay(cfg: Config, s: State, t: State, w: WorkerId)
    requires WorkersOk(cfg, s) && Grows(s.db.actions, t.db.actions) && ExecutionsGrow(s.executions, t.executions)
    requires forall v | v in t.workers && v != w ::
               v in s.workers && t.workers[v] == s.workers[v] && Respects(s.db.messages, t.db.messages, v)
    requires w in t.workers ==> DispatchOk(cfg, t.db, t.executions, w, t.workers[w])
    ensures WorkersOk(cfg, t)
  {
    forall v | v in t.workers ensures DispatchOk(cfg, t.db, t.executions, v, t.workers[v]) {
      if v != w {
        DispatchStays(cfg, s.db, t.db, s.executions, t.executions, v, s.workers[v]);
      }
    }
  }

  lemma ExecutionsStay(cfg: Config, before: map<ActionId, Action>, after: map<ActionId, Action>, x: Executions)
    requires ExecutionsOk(cfg, before, x) && Grows(before, after)
    ensures ExecutionsOk(cfg, after, x)
  {
    forall name | name in x ensures ExecutionOk(cfg, after, name, x[name]) {
      var id := x[name].input.actionId;
      assert ExecutionOk(cfg, before, name, x[name]);
      assert Past(before[id], after[id]);
    }
  }

  lemma ReceiptsStay(before: map<ActionId, Action>, after: map<ActionId, Action>, receipts: map<Uuid, Receipt>)
    requires ReceiptsOk(before, receipts) && Grows(before, after)
    requires forall i | i in after && after[i].status == Status.Executed ::
               (i in before && before[i].status == Status.Executed) || ReceiptKept(receipts, after[i])
    ensures ReceiptsOk(after, receipts)
  {
    forall k | k in receipts ensures ReceiptOk(after, k, receipts[k]) {
      assert ReceiptOk(before, k, receipts[k]);
      assert Past(before[receipts[k].actionId], after[receipts[k].actionId]);
    }
    forall i | i in after ensures ReceiptKept(receipts, after[i]) {
      if i in before && before[i].status == Status.Executed {
        assert ReceiptKept(receipts, before[i]) && Past(before[i], after[i]);
      }
    }
  }

  // ---------------------------------------------------------------- requests that only read or return

  // A step that changes one request and nothing else.
  lemma RequestStepKeeps(cfg: Config, s: State, r: nat, request: Request)
    requires Inv(cfg, s) && RequestOk(s.db.actions, s.receipts, request)
    ensures Inv(cfg, WithRequest(s, r, request))
  {
    GrowsReflexive(s.db.actions);
    RequestsStay(s, WithRequest(s, r, request), r);
  }

  lemma FoundIsKnown(db: Database, tenant: Tenant, key: Uuid)
    requires ActionsOk(db.actions)
    ensures FindByKey(db, tenant, key).Some? ==> Known(db.actions, FindByKey(db, tenant, key).value)
  {
  }

  lemma BeginProposalKeeps(cfg: Config, s: State, r: nat, p: Proposal, now: Time)
    requires Inv(cfg, s)
    ensures Inv(cfg, WithRequest(s, r, BegunProposal(s.db, p, now)))
  {
    var action := ProposedAction(p, now);
    FoundIsKnown(s.db, action.tenant, action.key);
    RequestStepKeeps(cfg, s, r, BegunProposal(s.db, p, now));
  }

  lemma ReconsiderProposalKeeps(cfg: Config, s: State, r: nat, action: Action)
    requires Inv(cfg, s)
    ensures Inv(cfg, WithRequest(s, r, ReconsideredProposal(s.db, action)))
  {
    FoundIsKnown(s.db, action.tenant, action.key);
    RequestStepKeeps(cfg, s, r, ReconsideredProposal(s.db, action));
  }

  lemma BeginDecisionKeeps(cfg: Config, s: State, r: nat, id: ActionId, principal: Principal, approve: bool,
                           comment: string, now: Time)
    requires Inv(cfg, s)
    ensures Inv(cfg, WithRequest(s, r, BegunDecision(s.db, id, principal, approve, comment, now)))
  {
    var request := BegunDecision(s.db, id, principal, approve, comment, now);
    if request.DecisionReady? {
      assert ActionOk(s.db.actions[id]);
    }
    RequestStepKeeps(cfg, s, r, request);
  }

  lemma BeginExecutionKeeps(cfg: Config, s: State, r: nat, id: ActionId, principal: Principal)
    requires Inv(cfg, s)
    ensures Inv(cfg, WithRequest(s, r, BegunExecution(s.db, id, principal)))
  {
    var request := BegunExecution(s.db, id, principal);
    if id in s.db.actions {
      assert ActionOk(s.db.actions[id]);
    }
    RequestStepKeeps(cfg, s, r, request);
  }

  lemma ReconsiderExecutionKeeps(cfg: Config, s: State, r: nat, id: ActionId)
    requires Inv(cfg, s)
    ensures Inv(cfg, WithRequest(s, r, ReconsideredExecution(s.db, id)))
  {
    RequestStepKeeps(cfg, s, r, ReconsideredExecution(s.db, id));
  }

  lemma CrashRequestKeeps(cfg: Config, s: State, r: nat)
    requires Inv(cfg, s)
    ensures Inv(cfg, s.(requests := s.requests - {r}))
  {
    GrowsReflexive(s.db.actions);
    RequestsStay(s, s.(requests := s.requests - {r}), r);
  }

  // ---------------------------------------------------------------- commits

  lemma CommitProposalKeeps(cfg: Config, s: State, r: nat, mid: Uuid, now: Time)
    requires Sound(cfg) && Inv(cfg, s) && Enabled(cfg, s, CommitProposal(r, mid, now))
    ensures Inv(cfg, AfterCommitProposal(s, r, mid, now))
  {
    var action := s.requests[r].action;
    assert RequestOk(s.db.actions, s.receipts, s.requests[r]);
    if Violates(s.db, action, mid) {
      RequestStepKeeps(cfg, s, r, ProposalRefused(action));
    } else {
      var db := InsertProposal(s.db, action, mid, now);
      var t := AfterCommitProposal(s, r, mid, now);
      InsertKeeps(cfg.maxAttempts, s.db, action, mid, now);
      InsertActions(s.db, action, mid, now);
      ExecutionsStay(cfg, s.db.actions, db.actions, s.executions);
      ReceiptsStay(s.db.actions, db.actions, s.receipts);
      RequestsStay(s, t, r);
      CommitWorkersStay(cfg, s, t);
    }
  }

  // A commit on behalf of a request touches no leased row.
  lemma CommitWorkersStay(cfg: Config, s: State, t: State)
    requires WorkersOk(cfg, s) && Grows(s.db.actions, t.db.actions)
    requires t.workers == s.workers && t.executions == s.executions
    requires forall m | m in s.db.messages :: m in t.db.messages && t.db.messages[m] == s.db.messages[m]
    ensures WorkersOk(cfg, t)
  {
    forall v | v in t.workers ensures DispatchOk(cfg, t.db, t.executions, v, t.workers[v]) {
      DispatchStays(cfg, s.db, t.db, s.executions, t.executions, v, s.workers[v]);
    }
  }

  // A lawful transition that leaves the invariant's other parties content.
  lemma TransitionKeepsShared(cfg: Config, s: State, action: Action, event: AuditEvent)
    requires TablesOk(cfg.maxAttempts, s.db) && ExecutionsOk(cfg, s.db.actions, s.executions)
    requires ReferencesOk(cfg, s.db.actions, s.executions) && ReceiptsOk(s.db.actions, s.receipts)
             && Lawful(s.db, action, event)
    requires var row := WriteTransition(s.db.actions[action.id], action);
             row.status == Status.Executed ==> row.key in s.receipts && row.receipt == Some(s.receipts[row.key])
    ensures var db := Transitioned(s.db, action, event);
            && Grows(s.db.actions, db.actions)
            && TablesOk(cfg.maxAttempts, db) && ExecutionsOk(cfg, db.actions, s.executions)
            && ReferencesOk(cfg, db.actions, s.executions) && ReceiptsOk(db.actions, s.receipts)
  {
    var db := Transitioned(s.db, action, event);
    TransitionKeeps(cfg.maxAttempts, s.db, action, event);
    TransitionActions(s.db, action, event);
    ExecutionsStay(cfg, s.db.actions, db.actions, s.executions);
    ReceiptsStay(s.db.actions, db.actions, s.receipts);
    TransitionReferences(cfg, s.db, action, event, s.executions);
  }

  lemma TransitionStepKeeps(cfg: Config, s: State, r: nat, action: Action, event: AuditEvent, request: Request)
    requires Inv(cfg, s) && Lawful(s.db, action, event)
    requires var row := WriteTransition(s.db.actions[action.id], action);
             row.status == Status.Executed ==> row.key in s.receipts && row.receipt == Some(s.receipts[row.key])
    requires RequestOk(Transitioned(s.db, action, event).actions, s.receipts, request)
    ensures Inv(cfg, WithRequest(s.(db := Transitioned(s.db, action, event)), r, request))
  {
    var db := Transitioned(s.db, action, event);
    var t := WithRequest(s.(db := db), r, request);
    TransitionKeepsShared(cfg, s, action, event);
    RequestsStay(s, t, r);
    CommitWorkersStay(cfg, s, t);
  }

  lemma TransitionReferences(cfg: Config, db: Database, action: Action, event: AuditEvent, x: Executions)
    requires ReferencesOk(cfg, db.actions, x) && action.id in db.actions
    ensures ReferencesOk(cfg, Transitioned(db, action, event).actions, x)
  {
    var after := Transitioned(db, action, event).actions;
    forall i | i in after && after[i].reference.Some? ensures IsReference(cfg, x, i, after[i].reference.value) {
      assert IsReference(cfg, x, i, db.actions[i].reference.value);
    }
  }

  lemma DecisionIsLawful(db: Database, receipts: map<Uuid, Receipt>, decided: Action)
    requires ActionsOk(db.actions) && AuditOk(db) && RequestOk(db.actions, receipts, DecisionReady(decided))
    requires db.actions[decided.id].status == PendingApproval
    ensures Lawful(db, decided, DecisionEvent(decided))
    ensures Known(Transitioned(db, decided, DecisionEvent(decided)).actions, decided)
  {
    var row := db.actions[decided.id];
    assert row.id == decided.id;
    assert Tells(Trace(db.audit, decided.id), row);
    assert DecisionEvent(WriteTransition(row, decided)) == DecisionEvent(decided);
  }

  lemma CommitDecisionKeeps(cfg: Config, s: State, r: nat)
    requires Inv(cfg, s) && Enabled(cfg, s, CommitDecision(r))
    ensures Inv(cfg, AfterCommitDecision(s, r))
  {
    var decided := s.requests[r].decided;
    assert RequestOk(s.db.actions, s.receipts, s.requests[r]);
    if s.db.actions[decided.id].status == PendingApproval {
      DecisionIsLawful(s.db, s.receipts, decided);
      TransitionStepKeeps(cfg, s, r, decided, DecisionEvent(decided), Returned(Stored(decided)));
    } else {
      RequestStepKeeps(cfg, s, r, Returned(Failure(StateConflict)));
    }
  }

  lemma ExecutionIsLawful(db: Database, a: Action, receipt: Receipt, actor: Subject)
    requires ActionsOk(db.actions) && AuditOk(db) && ApprovedCopy(db.actions, a)
    requires db.actions[a.id].status == Status.Approved
    ensures Lawful(db, Executing(a, receipt), ExecutionEvent(Executing(a, receipt), actor))
    ensures WriteTransition(db.actions[a.id], Executing(a, receipt))
            == db.actions[a.id].(status := Status.Executed, receipt := Some(receipt),
                executedAt := Some(receipt.executedAt))
  {
    var row := db.actions[a.id];
    assert row.id == a.id;
    assert Tells(Trace(db.audit, a.id), row);
  }

  lemma CommitExecutionKeeps(cfg: Config, s: State, r: nat)
    requires Inv(cfg, s) && Enabled(cfg, s, CommitExecution(r))
    ensures Inv(cfg, AfterCommitExecution(s, r))
  {
    var a, receipt, actor := s.requests[r].approved, s.requests[r].receipt, s.requests[r].actor;
    assert RequestOk(s.db.actions, s.receipts, s.requests[r]);
    var executed := Executing(a, receipt);
    if s.db.actions[a.id].status == Status.Approved {
      ExecutionIsLawful(s.db, a, receipt, actor);
      TransitionStepKeeps(cfg, s, r, executed, ExecutionEvent(executed, actor), Returned(Receipted(a.id, receipt)));
    } else {
      RequestStepKeeps(cfg, s, r, ExecutionRefused(a.id));
    }
  }

  // ---------------------------------------------------------------- the supplier system

  lemma SupplierKeeps(actions: map<ActionId, Action>, receipts: map<Uuid, Receipt>, a: Action, now: Time)
    requires ReceiptsOk(actions, receipts) && ApprovedCopy(actions, a)
    ensures ReceiptsOk(actions, SupplierReceipts(receipts, a, now))
    ensures ReceiptsGrow(receipts, SupplierReceipts(receipts, a, now))
  {
    var after := SupplierReceipts(receipts, a, now);
    forall k | k in after ensures ReceiptOk(actions, k, after[k]) {
      if k in receipts {
        assert ReceiptOk(actions, k, receipts[k]);
      }
    }
    forall i | i in actions ensures ReceiptKept(after, actions[i]) {
      assert ReceiptKept(receipts, actions[i]);
    }
  }

  lemma CallSupplierKeeps(cfg: Config, s: State, r: nat, now: Time)
    requires Inv(cfg, s) && Enabled(cfg, s, CallSupplier(r, now))
    ensures Inv(cfg, AfterCallSupplier(s, r, now))
  {
    var a := s.requests[r].approved;
    assert RequestOk(s.db.actions, s.receipts, s.requests[r]);
    SupplierKeeps(s.db.actions, s.receipts, a, now);
    GrowsReflexive(s.db.actions);
    RequestsStay(s, AfterCallSupplier(s, r, now), r);
  }

  // ---------------------------------------------------------------- workers

  lemma ClaimRespects(messages: map<Uuid, Message>, claimed: seq<Uuid>, w: WorkerId, now: Time, v: WorkerId)
    requires v != w
    ensures Respects(messages, Claim(messages, claimed, w, now), v)
  {
  }

  lemma SelectedIsClaimable(messages: map<Uuid, Message>, skipped: set<Uuid>, batchSize: nat, lockTimeout: Duration,
                            now: Time, claimed: seq<Uuid>)
    requires Selects(messages, skipped, batchSize, lockTimeout, now, claimed)
    ensures Claimable(messages, claimed) && Distinct(claimed)
    ensures forall i | 0 <= i < |claimed| :: messages[claimed[i]].availableAt <= now
  {
  }

  // The snapshots of a claim are about different rows, each as the claim left it.
  lemma ClaimedSnapshotsOk(messages: map<Uuid, Message>, claimed: seq<Uuid>, w: WorkerId, now: Time)
    requires Distinct(claimed) && forall m | m in messages :: messages[m].id == m
    requires forall i | 0 <= i < |claimed| :: claimed[i] in messages && messages[claimed[i]].availableAt <= now
    ensures var after := Claim(messages, claimed, w, now);
            var snapshots := Snapshots(after, claimed);
            && (forall i, j | 0 <= i < j < |snapshots| :: snapshots[i].id != snapshots[j].id)
            && (forall k | 0 <= k < |snapshots| :: SnapshotOk(after, w, now, snapshots[k]))
  {
    var after := Claim(messages, claimed, w, now);
    var snapshots := Snapshots(after, claimed);
    forall i, j | 0 <= i < j < |snapshots| ensures snapshots[i].id != snapshots[j].id {
      assert snapshots[i] == after[claimed[i]] && snapshots[j] == after[claimed[j]];
      assert messages[claimed[i]].id == claimed[i] && messages[claimed[j]].id == claimed[j];
    }
    forall k | 0 <= k < |snapshots| ensures SnapshotOk(after, w, now, snapshots[k]) {
      assert snapshots[k] == after[claimed[k]];
    }
  }

  lemma ClaimBatchKeeps(cfg: Config, s: State, w: WorkerId, now: Time, skipped: set<Uuid>, claimed: seq<Uuid>)
    requires Inv(cfg, s) && Enabled(cfg, s, ClaimBatch(w, now, skipped, claimed))
    ensures Inv(cfg, AfterClaim(s, w, now, claimed))
  {
    var t := AfterClaim(s, w, now, claimed);
    SelectedIsClaimable(s.db.messages, skipped, cfg.batchSize, cfg.lockTimeout, now, claimed);
    ClaimKeeps(cfg.maxAttempts, s.db, claimed, w, now);
    GrowsReflexive(s.db.actions);
    forall v | v != w ensures Respects(s.db.messages, t.db.messages, v) {
      ClaimRespects(s.db.messages, claimed, w, now, v);
    }
    if claimed != [] {
      ClaimedSnapshotsOk(s.db.messages, claimed, w, now);
    }
    WorkersStay(cfg, s, t, w);
    AllRequestsStay(s, t);
  }

  // A worker moves on without touching anything shared.
  lemma WorkerStepKeeps(cfg: Config, s: State, w: WorkerId, t: State)
    requires Inv(cfg, s)
    requires t == s.(workers := t.workers)
    requires forall v | v in t.workers && v != w :: v in s.workers && t.workers[v] == s.workers[v]
    requires w in t.workers ==> DispatchOk(cfg, s.db, s.executions, w, t.workers[w])
    ensures Inv(cfg, t)
  {
    GrowsReflexive(s.db.actions);
    WorkersStay(cfg, s, t, w);
  }

  lemma FetchActionKeeps(cfg: Config, s: State, w: WorkerId, readable: bool)
    requires Inv(cfg, s) && Enabled(cfg, s, FetchAction(w, readable))
    ensures Inv(cfg, WithPhase(s, w, Fetched(s.db, s.workers[w].todo[0], readable)))
  {
    var m := s.workers[w].todo[0];
    assert DispatchOk(cfg, s.db, s.executions, w, s.workers[w]);
    WorkerStepKeeps(cfg, s, w, WithPhase(s, w, Fetched(s.db, m, readable)));
  }

  lemma CrashWorkerKeeps(cfg: Config, s: State, w: WorkerId)
    requires Inv(cfg, s)
    ensures Inv(cfg, s.(workers := s.workers - {w}))
  {
    WorkerStepKeeps(cfg, s, w, s.(workers := s.workers - {w}));
  }

  // A start leaves at most one new execution, named after its action.
  lemma StartExecutions(cfg: Config, actions: map<ActionId, Action>, x: Executions, a: Action, fortune: Fortune)
    requires Sound(cfg) && ExecutionsOk(cfg, actions, x) && a.id in actions
    ensures var (after, result) := Start(x, cfg.machine, cfg.hex(a.id), a, fortune);
            && ExecutionsOk(cfg, actions, after) && ExecutionsGrow(x, after)
            && (result.Ok? ==> IsReference(cfg, after, a.id, result.value))
  {
    var (after, result) := Start(x, cfg.machine, cfg.hex(a.id), a, fortune);
    var mine := NameFor(cfg, a.id);
    RebuiltReference(cfg.machine, mine);
    forall name | name in after ensures ExecutionOk(cfg, actions, name, after[name]) {
      if name in x {
        assert ExecutionOk(cfg, actions, name, x[name]);
      }
    }
    if mine in x {
      assert ExecutionOk(cfg, actions, mine, x[mine]);
      SameNameSameAction(cfg, x[mine].input.actionId, a.id);
    }
  }

  lemma SameNameSameAction(cfg: Config, i: ActionId, j: ActionId)
    requires Sound(cfg)
    ensures NameFor(cfg, i) == NameFor(cfg, j) ==> i == j
  {
    if NameFor(cfg, i) == NameFor(cfg, j) {
      var n := |"supplier-action-"|;
      assert cfg.hex(i) == NameFor(cfg, i)[n..] && cfg.hex(j) == NameFor(cfg, j)[n..];
    }
  }

  lemma ReferencesStay(cfg: Config, actions: map<ActionId, Action>, x: Executions, after: Executions)
    requires ReferencesOk(cfg, actions, x) && ExecutionsGrow(x, after)
    ensures ReferencesOk(cfg, actions, after)
  {
    forall i | i in actions
      && actions[i].reference.Some? ensures IsReference(cfg, after, i, actions[i].reference.value) {
      assert IsReference(cfg, x, i, actions[i].reference.value);
    }
  }

  lemma StartWorkflowKeeps(cfg: Config, s: State, w: WorkerId, fortune: Fortune)
    requires Sound(cfg) && Inv(cfg, s) && Enabled(cfg, s, StartWorkflow(w, fortune))
    ensures Inv(cfg, AfterStart(cfg, s, w, fortune))
  {
    var d, t := s.workers[w], AfterStart(cfg, s, w, fortune);
    var a := d.phase.action;
    assert DispatchOk(cfg, s.db, s.executions, w, d);
    StartExecutions(cfg, s.db.actions, s.executions, a, fortune);
    ReferencesStay(cfg, s.db.actions, s.executions, t.executions);
    GrowsReflexive(s.db.actions);
    WorkersStay(cfg, s, t, w);
    AllRequestsStay(s, t);
  }

  // After the first snapshot's row is released, the rest of the batch goes on.
  lemma AdvanceKeeps(cfg: Config, s: State, w: WorkerId, db: Database)
    requires WorkersOk(cfg, s) && Busy(s, w) && Grows(s.db.actions, db.actions)
    requires forall m | m in s.db.messages :: m in db.messages && SameMessage(s.db.messages[m], db.messages[m])
    requires forall m | m in s.db.messages && db.messages[m].lockedBy.Some? :: db.messages[m] == s.db.messages[m]
    ensures WorkersOk(cfg, s.(db := db, workers := Advance(s.workers, w)))
  {
    var t := s.(db := db, workers := Advance(s.workers, w));
    assert DispatchOk(cfg, s.db, s.executions, w, s.workers[w]);
    assert SnapshotOk(s.db.messages, w, s.workers[w].now, s.workers[w].todo[0]);
    forall v ensures Respects(s.db.messages, db.messages, v) {
    }
    if w in t.workers {
      DispatchStays(cfg, s.db, db, s.executions, s.executions, w, s.workers[w]);
      assert DispatchOk(cfg, db, s.executions, w, t.workers[w]);
    }
    WorkersStay(cfg, s, t, w);
  }

  lemma AcknowledgeKeeps(cfg: Config, s: State, w: WorkerId)
    requires Sound(cfg) && Inv(cfg, s) && Enabled(cfg, s, Acknowledge(w))
    ensures Inv(cfg, AfterAcknowledge(s, w))
  {
    var d, t := s.workers[w], AfterAcknowledge(s, w);
    var mid, reference := d.todo[0].id, d.phase.reference;
    assert DispatchOk(cfg, s.db, s.executions, w, d);
    assert SnapshotOk(s.db.messages, w, d.now, d.todo[0]);
    assert LinkOk(s.db.actions, s.db.messages[mid]);
    var row := s.db.messages[mid];
    if row.publishedAt.None? && row.lockedBy == Some(w) {
      AcknowledgeCommits(cfg, s, w);
    } else if row.publishedAt.Some? {
      GrowsReflexive(s.db.actions);
      AdvanceKeeps(cfg, s, w, s.db);
    } else {
      WorkerStepKeeps(cfg, s, w, t);
    }
  }

  lemma ReferenceIsText(cfg: Config, id: ActionId)
    ensures ReferenceFor(cfg, id) != ""
  {
    assert |ReferenceFor(cfg, id)| >= |":execution:"|;
  }

  // An acknowledgement by the lease holder commits.
  lemma MarkPublishedCommits(db: Database, mid: Uuid, w: WorkerId, reference: string, now: Time)
    requires mid in db.messages && db.messages[mid].publishedAt.None? && db.messages[mid].lockedBy == Some(w)
    requires LinkOk(db.actions, db.messages[mid]) && reference != ""
    ensures MarkPublished(db, mid, w, reference, now) == Ok(Acknowledged(db, mid, reference, now))
  {
  }

  lemma AcknowledgedRows(db: Database, mid: Uuid, reference: string, now: Time)
    requires mid in db.messages && db.messages[mid].aggregateId in db.actions
    ensures var after := Acknowledged(db, mid, reference, now);
            && (forall m | m in db.messages :: m in after.messages && SameMessage(db.messages[m], after.messages[m]))
            && (forall m | m in db.messages && after.messages[m].lockedBy.Some? :: after.messages[m] == db.messages[m])
  {
  }

  lemma PublicationKeeps(cfg: Config, s: State, w: WorkerId, mid: Uuid, reference: string, now: Time)
    requires mid in s.db.messages && s.db.messages[mid].publishedAt.None? && s.db.messages[mid].lockedBy == Some(w)
    requires Busy(s, w) && LinkOk(s.db.actions, s.db.messages[mid])
    requires Inv(cfg, s) && IsReference(cfg, s.executions, s.db.messages[mid].aggregateId, reference)
    ensures Inv(cfg, s.(db := Acknowledged(s.db, mid, reference, now), workers := Advance(s.workers, w)))
  {
    var db := Acknowledged(s.db, mid, reference, now);
    var t := s.(db := db, workers := Advance(s.workers, w));
    PublishKeeps(cfg.maxAttempts, s.db, mid, reference, now);
    PublishActions(s.db, mid, reference, now);
    PublicationSpreads(cfg, s, mid, reference, now);
    AcknowledgedRows(s.db, mid, reference, now);
    AdvanceKeeps(cfg, s, w, db);
    AllRequestsStay(s, t);
  }

  lemma AcknowledgeCommits(cfg: Config, s: State, w: WorkerId)
    requires Enabled(cfg, s, Acknowledge(w))
    requires var mid := s.workers[w].todo[0].id;
             mid in s.db.messages && s.db.messages[mid].publishedAt.None? && s.db.messages[mid].lockedBy == Some(w)
    requires Inv(cfg, s)
    ensures Inv(cfg, AfterAcknowledge(s, w))
  {
    var d := s.workers[w];
    var mid, reference := d.todo[0].id, d.phase.reference;
    assert DispatchOk(cfg, s.db, s.executions, w, d);
    assert SnapshotOk(s.db.messages, w, d.now, d.todo[0]);
    assert LinkOk(s.db.actions, s.db.messages[mid]);
    ReferenceIsText(cfg, d.todo[0].aggregateId);
    MarkPublishedCommits(s.db, mid, w, reference, d.now);
    PublicationKeeps(cfg, s, w, mid, reference, d.now);
  }

  lemma PublicationSpreads(cfg: Config, s: State, mid: Uuid, reference: string, now: Time)
    requires mid in s.db.messages && s.db.messages[mid].aggregateId in s.db.actions
    requires Grows(s.db.actions, Acknowledged(s.db, mid, reference, now).actions)
    requires IsReference(cfg, s.executions, s.db.messages[mid].aggregateId, reference)
    requires ExecutionsOk(cfg, s.db.actions, s.executions) && ReferencesOk(cfg, s.db.actions, s.executions)
    requires ReceiptsOk(s.db.actions, s.receipts)
    ensures var actions := Acknowledged(s.db, mid, reference, now).actions;
            && ExecutionsOk(cfg, actions, s.executions) && ReferencesOk(cfg, actions, s.executions)
            && ReceiptsOk(actions, s.receipts)
  {
    var actions := Acknowledged(s.db, mid, reference, now).actions;
    ExecutionsStay(cfg, s.db.actions, actions, s.executions);
    ReceiptsStay(s.db.actions, actions, s.receipts);
    PublishReferences(cfg, s.db, mid, reference, now, s.executions);
  }

  lemma PublishReferences(cfg: Config, db: Database, mid: Uuid, reference: string, now: Time, x: Executions)
    requires ReferencesOk(cfg, db.actions, x) && mid in db.messages && db.messages[mid].aggregateId in db.actions
    requires IsReference(cfg, x, db.messages[mid].aggregateId, reference)
    ensures ReferencesOk(cfg, Acknowledged(db, mid, reference, now).actions, x)
  {
    var after := Acknowledged(db, mid, reference, now).actions;
    forall i | i in after && after[i].reference.Some? ensures IsReference(cfg, x, i, after[i].reference.value) {
      if i != db.messages[mid].aggregateId {
        assert IsReference(cfg, x, i, db.actions[i].reference.value);
      }
    }
  }

  lemma HeldFailureKeeps(cfg: Config, s: State, w: WorkerId)
    requires Sound(cfg) && Inv(cfg, s) && Enabled(cfg, s, RecordFailed(w))
    requires var mid := s.workers[w].todo[0].id;
             mid in s.db.messages && s.db.messages[mid] == s.workers[w].todo[0]
               && s.db.messages[mid].lockedBy == Some(w)
    ensures Inv(cfg, AfterRecordFailed(cfg, s, w))
  {
    var d, t := s.workers[w], AfterRecordFailed(cfg, s, w);
    FailureKeeps(cfg.maxAttempts, s.db, d.todo[0].id, d.phase.error, RetryAt(cfg, d), d.now);
    GrowsReflexive(s.db.actions);
    AdvanceKeeps(cfg, s, w, t.db);
    AllRequestsStay(s, t);
  }

  lemma RecordFailedKeeps(cfg: Config, s: State, w: WorkerId)
    requires Sound(cfg) && Inv(cfg, s) && Enabled(cfg, s, RecordFailed(w))
    ensures Inv(cfg, AfterRecordFailed(cfg, s, w))
  {
    var d, t := s.workers[w], AfterRecordFailed(cfg, s, w);
    var mid := d.todo[0].id;
    assert DispatchOk(cfg, s.db, s.executions, w, d);
    assert SnapshotOk(s.db.messages, w, d.now, d.todo[0]);
    if s.db.messages[mid].lockedBy == Some(w) {
      HeldFailureKeeps(cfg, s, w);
    } else {
      WorkerStepKeeps(cfg, s, w, t);
    }
  }

  // ---------------------------------------------------------------- the workflow service

  lemma OutcomeKeeps(cfg: Config, s: State, name: string, outcome: Outcome)
    requires name in s.executions && s.executions[name].outcome == Running
    requires Inv(cfg, s)
    requires ExecutionOk(cfg, s.db.actions, name, s.executions[name].(outcome := outcome))
    ensures Inv(cfg, WithOutcome(s, name, outcome))
  {
    var t := WithOutcome(s, name, outcome);
    forall other | other in t.executions ensures ExecutionOk(cfg, s.db.actions, other, t.executions[other]) {
      if other != name {
        assert ExecutionOk(cfg, s.db.actions, other, s.executions[other]);
      }
    }
    ReferencesStay(cfg, s.db.actions, s.executions, t.executions);
    GrowsReflexive(s.db.actions);
    CommitlessWorkersStay(cfg, s, t);
    AllRequestsStay(s, t);
  }

  lemma CommitlessWorkersStay(cfg: Config, s: State, t: State)
    requires WorkersOk(cfg, s) && t.workers == s.workers && t.db == s.db && ExecutionsGrow(s.executions, t.executions)
    ensures WorkersOk(cfg, t)
  {
    GrowsReflexive(s.db.actions);
    forall v | v in t.workers ensures DispatchOk(cfg, t.db, t.executions, v, t.workers[v]) {
      DispatchStays(cfg, s.db, t.db, s.executions, t.executions, v, s.workers[v]);
    }
  }

  lemma PollKeeps(cfg: Config, s: State, name: string)
    requires Inv(cfg, s) && Enabled(cfg, s, Poll(name))
    ensures Inv(cfg, WithOutcome(s, name, Route(s.db.actions[s.executions[name].input.actionId].status)))
  {
    var id := s.executions[name].input.actionId;
    assert ExecutionOk(cfg, s.db.actions, name, s.executions[name]);
    assert ActionOk(s.db.actions[id]);
    OutcomeKeeps(cfg, s, name, Route(s.db.actions[id].status));
  }

  lemma ExpireKeeps(cfg: Config, s: State, name: string)
    requires Inv(cfg, s) && Enabled(cfg, s, Expire(name))
    ensures Inv(cfg, WithOutcome(s, name, TimedOut))
  {
    assert ExecutionOk(cfg, s.db.actions, name, s.executions[name]);
    OutcomeKeeps(cfg, s, name, TimedOut);
  }

  // ---------------------------------------------------------------- all steps

  lemma StepKeepsInv(cfg: Config, s: State, e: Event)
    requires Sound(cfg) && Inv(cfg, s) && Enabled(cfg, s, e)
    ensures Inv(cfg, Next(cfg, s, e))
  {
    match e
    case BeginProposal(r, proposal, now) => BeginProposalKeeps(cfg, s, r, proposal, now);
    case CommitProposal(r, mid, now) => CommitProposalKeeps(cfg, s, r, mid, now);
    case ReconsiderProposal(r) => ReconsiderProposalKeeps(cfg, s, r, s.requests[r].action);
    case BeginDecision(r, id, principal, approve, comment, now) =>
      BeginDecisionKeeps(cfg, s, r, id, principal, approve, comment, now);
    case CommitDecision(r) => CommitDecisionKeeps(cfg, s, r);
    case BeginExecution(r, id, principal) => BeginExecutionKeeps(cfg, s, r, id, principal);
    case CallSupplier(r, now) => CallSupplierKeeps(cfg, s, r, now);
    case CommitExecution(r) => CommitExecutionKeeps(cfg, s, r);
    case ReconsiderExecution(r) => ReconsiderExecutionKeeps(cfg, s, r, s.requests[r].id);
    case CrashRequest(r) => CrashRequestKeeps(cfg, s, r);
    case ClaimBatch(w, now, skipped, claimed) => ClaimBatchKeeps(cfg, s, w, now, skipped, claimed);
    case FetchAction(w, readable) => FetchActionKeeps(cfg, s, w, readable);
    case StartWorkflow(w, fortune) => StartWorkflowKeeps(cfg, s, w, fortune);
    case Acknowledge(w) => AcknowledgeKeeps(cfg, s, w);
    case RecordFailed(w) => RecordFailedKeeps(cfg, s, w);
    case CrashWorker(w) => CrashWorkerKeeps(cfg, s, w);
    case Poll(name) => PollKeeps(cfg, s, name);
    case Expire(name) => ExpireKeeps(cfg, s, name);
  }
}
