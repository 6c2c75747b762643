/**
 The whole system as a state machine over atomic steps: API requests, outbox workers, the
 Step Functions service and the supplier system, all running at once over the shared tables
 (packages/governance/service.py, packages/outbox/dispatcher.py, packages/workflows/approvals.py).

 One event is one database transaction, one external call, or one crash. Local state of a request or
 of a worker is lost when it crashes; tables and external services stay. Each worker process has a
 worker id of its own. Claims may carry any clock reading and may skip any rows.
 */
module Protocol {
  import opened Model
  import opened Transactions
  import opened Approvals

  datatype Config = Config(
    machine: Machine, hex: ActionId -> string, batchSize: nat, lockTimeout: Duration,
    maxAttempts: nat, retryBase: Duration, retryMax: Duration)

  datatype Proposal = Proposal(
    principal: Principal, caseId: Uuid, caseTenant: Tenant, reviewCaseId: Uuid, reviewId: Uuid,
    decision: Decision, rationale: string, requiredActions: seq<string>, key: Uuid)

  datatype Failure = Denied | WrongCase | IdempotencyConflict | IntegrityFailure | NotFound | StateConflict
  datatype Answer = Stored(action: Action) | Receipted(id: ActionId, receipt: Receipt) | Failure(failure: Failure)

  // What a request has in hand between its atomic steps.
  datatype Request =
    | ProposalReady(action: Action)
    | ProposalRefused(action: Action)
    | DecisionReady(decided: Action)
    | SupplierCall(approved: Action, actor: Subject)
    | ExecutionReady(approved: Action, receipt: Receipt, actor: Subject)
    | ExecutionRefused(id: ActionId)
    | Returned(answer: Answer)

  datatype Phase = Fetching | Starting(action: Action) | Acknowledging(reference: string) | Failing(error: string)

  // A worker inside `dispatch_once`: its clock reading, the snapshots still to deliver, and where it is with the first.
  datatype Dispatch = Dispatch(now: Time, todo: seq<Message>, phase: Phase)

  datatype State = State(
    db: Database, executions: Executions, receipts: map<Uuid, Receipt>,
    requests: map<nat, Request>, workers: map<WorkerId, Dispatch>)

  const INITIAL := State(Database(map[], map[], []), map[], map[], map[], map[])

  datatype Event =
    | BeginProposal(r: nat, proposal: Proposal, now: Time)
    | CommitProposal(r: nat, mid: Uuid, now: Time)
    | ReconsiderProposal(r: nat)
    | BeginDecision(r: nat, id: ActionId, principal: Principal, approve: bool, comment: string, now: Time)
    | CommitDecision(r: nat)
    | BeginExecution(r: nat, id: ActionId, principal: Principal)
    | CallSupplier(r: nat, now: Time)
    | CommitExecution(r: nat)
    | ReconsiderExecution(r: nat)
    | CrashRequest(r: nat)
    | ClaimBatch(w: WorkerId, now: Time, skipped: set<Uuid>, claimed: seq<Uuid>)
    | FetchAction(w: WorkerId, readable: bool)
    | StartWorkflow(w: WorkerId, fortune: Fortune)
    | Acknowledge(w: WorkerId)
    | RecordFailed(w: WorkerId)
    | CrashWorker(w: WorkerId)
    | Poll(name: string)
    | Expire(name: string)

  // ---------------------------------------------------------------- propose

  function ProposedAction(p: Proposal, now: Time): Action {
    Action(ActionId(p.principal.tenant, p.key), p.caseId, p.reviewId, p.caseTenant,
           Arguments(p.caseId, p.reviewId, p.decision, p.rationale, p.requiredActions),
           PendingApproval, p.principal.subject, None, "", p.key, None, None, now, None, None)
  }

  // The stored action, unless it belongs to another proposal.
  function Resolve(stored: Action, action: Action): Answer {
    if stored.caseId != action.caseId || stored.reviewId != action.reviewId then Failure(IdempotencyConflict)
    else Stored(stored)
  }

  ghost function BegunProposal(db: Database, p: Proposal, now: Time): Request {
    if !p.principal.HasRole(Analyst) || !p.principal.MayAccess(p.caseTenant) then Returned(Failure(Denied))
    else if p.reviewCaseId != p.caseId then Returned(Failure(WrongCase))
    else
      var action := ProposedAction(p, now);
      var existing := FindByKey(db, action.tenant, action.key);
      if existing.Some? then Returned(Resolve(existing.value, action)) else ProposalReady(action)
  }

  ghost function ReconsideredProposal(db: Database, action: Action): Request {
    var existing := FindByKey(db, action.tenant, action.key);
    Returned(if existing.Some? then Resolve(existing.value, action) else Failure(IntegrityFailure))
  }

  // ---------------------------------------------------------------- decide

  function Decided(action: Action, approve: bool, approver: Subject, comment: string, now: Time): Action {
    action.(status := if approve then Status.Approved else Status.Rejected,
            approver := Some(approver), comment := comment, decidedAt := Some(now))
  }

  function BegunDecision(db: Database, id: ActionId, principal: Principal, approve: bool, comment: string,
                         now: Time): Request {
    if !principal.HasRole(Approver) then Returned(Failure(Denied))
    else if id !in db.actions then Returned(Failure(NotFound))
    else
      var action := db.actions[id];
      if !principal.MayAccess(action.tenant) || action.proposer == principal.subject then Returned(Failure(Denied))
      else if action.status != PendingApproval then Returned(Failure(StateConflict))
      else DecisionReady(Decided(action, approve, principal.subject, comment, now))
  }

  function DecisionEvent(decided: Action): AuditEvent {
    AuditEvent(if decided.status == Status.Approved then ActionApproved else ActionRejected,
               decided.id, decided.caseId, decided.approver.GetOr(""))
  }

  // ---------------------------------------------------------------- execute

  function BegunExecution(db: Database, id: ActionId, principal: Principal): Request {
    if !principal.HasRole(Executor) then Returned(Failure(Denied))
    else if id !in db.actions then Returned(Failure(NotFound))
    else
      var action := db.actions[id];
      if !principal.MayAccess(action.tenant) then Returned(Failure(Denied))
      else if action.status == Status.Executed && action.receipt.Some?
        then Returned(Receipted(id, action.receipt.value))
      else if action.status != Status.Approved then Returned(Failure(StateConflict))
      else SupplierCall(action, principal.subject)
  }

  function NewReceipt(action: Action, now: Time): Receipt {
    Receipt(action.id, action.arguments.decision, now)
  }

  // The supplier system applies a decision once per idempotency key and repeats its receipt after that.
  function SupplierReceipts(receipts: map<Uuid, Receipt>, action: Action, now: Time): map<Uuid, Receipt> {
    if action.key in receipts then receipts else receipts[action.key := NewReceipt(action, now)]
  }

  function Executing(approved: Action, receipt: Receipt): Action {
    approved.(status := Status.Executed, receipt := Some(receipt), executedAt := Some(receipt.executedAt))
  }

  function ExecutionEvent(action: Action, actor: Subject): AuditEvent {
    AuditEvent(ActionExecuted, action.id, action.caseId, actor)
  }

  function ReconsideredExecution(db: Database, id: ActionId): Request {
    if id !in db.actions then Returned(Failure(NotFound))
    else
      var current := db.actions[id];
      if current.status == Status.Executed && current.receipt.Some? then Returned(Receipted(id, current.receipt.value))
      else Returned(Failure(StateConflict))
  }

  // ---------------------------------------------------------------- dispatch

  // The handler's checks and its read of the authoritative action.
  function Fetched(db: Database, m: Message, readable: bool): Phase {
    if m.eventType != ApprovalWorkflowStart then Failing("ValueError")
    else if !readable then Failing("DatabaseError")
    else if m.payload.actionId !in db.actions then Failing("ActionNotFoundError")
    else if db.actions[m.payload.actionId].id != m.aggregateId then Failing("ValueError")
    else Starting(db.actions[m.payload.actionId])
  }

  // On to the next snapshot, or out of `dispatch_once`.
  function Advance(workers: map<WorkerId, Dispatch>, w: WorkerId): map<WorkerId, Dispatch>
    requires w in workers && workers[w].todo != []
  {
    if |workers[w].todo| == 1 then workers - {w}
    else workers[w := Dispatch(workers[w].now, workers[w].todo[1..], Fetching)]
  }

  function ErrorName(e: StartError): string {
    match e
    case ClientError => "ClientError"
    case NoArn => "RuntimeError"
    case InvalidMachineArn => "ValueError"
    case QualifiedMachineArn => "ValueError"
  }

  // ---------------------------------------------------------------- the polling workflow

  // RouteApprovalStatus: wait, succeed, or fail.
  function Route(status: Status): Outcome {
    match status
    case PendingApproval => Running
    case Approved => Succeeded
    case Executed => Succeeded
    case Rejected => RejectedOutcome
    case Failed => UnexpectedOutcome
  }

  // ---------------------------------------------------------------- steps

  ghost predicate Enabled(cfg: Config, s: State, e: Event) {
    match e
    case BeginProposal(r, _, _) => r !in s.requests
    case CommitProposal(r, mid, _) => r in s.requests && s.requests[r].ProposalReady? && mid !in s.db.messages
    case ReconsiderProposal(r) => r in s.requests && s.requests[r].ProposalRefused?
    case BeginDecision(r, _, _, _, _, _) => r !in s.requests
    case CommitDecision(r) => r in s.requests && s.requests[r].DecisionReady?
    case BeginExecution(r, _, _) => r !in s.requests
    case CallSupplier(r, _) => r in s.requests && s.requests[r].SupplierCall?
    case CommitExecution(r) => r in s.requests && s.requests[r].ExecutionReady?
    case ReconsiderExecution(r) => r in s.requests && s.requests[r].ExecutionRefused?
    case CrashRequest(r) => r in s.requests
    case ClaimBatch(w, now, skipped, claimed) =>
      w !in s.workers && Selects(s.db.messages, skipped, cfg.batchSize, cfg.lockTimeout, now, claimed)
    case FetchAction(w, _) => Busy(s, w) && s.workers[w].phase.Fetching?
    case StartWorkflow(w, _) => Busy(s, w) && s.workers[w].phase.Starting?
    case Acknowledge(w) => Busy(s, w) && s.workers[w].phase.Acknowledging?
    case RecordFailed(w) => Busy(s, w) && s.workers[w].phase.Failing?
    case CrashWorker(w) => w in s.workers
    case Poll(name) => name in s.executions && s.executions[name].outcome == Running
                       && s.executions[name].input.actionId in s.db.actions
    case Expire(name) => name in s.executions && s.executions[name].outcome == Running
  }

  predicate Busy(s: State, w: WorkerId) {
    w in s.workers && s.workers[w].todo != []
  }

  function WithRequest(s: State, r: nat, request: Request): State {
    s.(requests := s.requests[r := request])
  }

  ghost function AfterCommitProposal(s: State, r: nat, mid: Uuid, now: Time): State
    requires r in s.requests && s.requests[r].ProposalReady?
  {
    var action := s.requests[r].action;
    if Violates(s.db, action, mid) then WithRequest(s, r, ProposalRefused(action))
    else WithRequest(s.(db := InsertProposal(s.db, action, mid, now)), r, Returned(Resolve(action, action)))
  }

  function AfterCommitDecision(s: State, r: nat): State
    requires r in s.requests && s.requests[r].DecisionReady?
  {
    var decided := s.requests[r].decided;
    match SaveTransition(s.db, decided, DecisionEvent(decided), PendingApproval)
    case Ok(db) => WithRequest(s.(db := db), r, Returned(Stored(decided)))
    case Err(ActionNotFound) => WithRequest(s, r, Returned(Failure(NotFound)))
    case Err(TransitionConflict(_)) => WithRequest(s, r, Returned(Failure(StateConflict)))
  }

  function AfterCallSupplier(s: State, r: nat, now: Time): State
    requires r in s.requests && s.requests[r].SupplierCall?
  {
    var request := s.requests[r];
    var receipts := SupplierReceipts(s.receipts, request.approved, now);
    WithRequest(s.(receipts := receipts), r,
                ExecutionReady(request.approved, receipts[request.approved.key], request.actor))
  }

  function AfterCommitExecution(s: State, r: nat): State
    requires r in s.requests && s.requests[r].ExecutionReady?
  {
    var request := s.requests[r];
    var executed := Executing(request.approved, request.receipt);
    match SaveTransition(s.db, executed, ExecutionEvent(executed, request.actor), Status.Approved)
    case Ok(db) => WithRequest(s.(db := db), r, Returned(Receipted(executed.id, request.receipt)))
    case Err(ActionNotFound) => WithRequest(s, r, Returned(Failure(NotFound)))
    case Err(TransitionConflict(_)) => WithRequest(s, r, ExecutionRefused(executed.id))
  }

  function AfterClaim(s: State, w: WorkerId, now: Time, claimed: seq<Uuid>): State
    requires forall i | 0 <= i < |claimed| :: claimed[i] in s.db.messages
  {
    var messages := Claim(s.db.messages, claimed, w, now);
    var after := s.(db := s.db.(messages := messages));
    if claimed == [] then after
    else after.(workers := s.workers[w := Dispatch(now, Snapshots(messages, claimed), Fetching)])
  }

  function WithPhase(s: State, w: WorkerId, phase: Phase): State
    requires w in s.workers
  {
    s.(workers := s.workers[w := s.workers[w].(phase := phase)])
  }

  function AfterStart(cfg: Config, s: State, w: WorkerId, fortune: Fortune): State
    requires Busy(s, w) && s.workers[w].phase.Starting?
  {
    var action := s.workers[w].phase.action;
    var (executions, result) := Start(s.executions, cfg.machine, cfg.hex(action.id), action, fortune);
    var phase := match result
      case Ok(reference) => Acknowledging(reference)
      case Err(e) => Failing(ErrorName(e));
    WithPhase(s.(executions := executions), w, phase)
  }

  function AfterAcknowledge(s: State, w: WorkerId): State
    requires Busy(s, w) && s.workers[w].phase.Acknowledging?
  {
    var d := s.workers[w];
    match MarkPublished(s.db, d.todo[0].id, w, d.phase.reference, d.now)
    case Ok(db) => s.(db := db, workers := Advance(s.workers, w))
    case Err(_) => s.(workers := s.workers - {w})
  }

  function RetryAt(cfg: Config, d: Dispatch): Time
    requires d.todo != []
  {
    d.now + RetryDelay(cfg.retryBase, cfg.retryMax, d.todo[0].attemptCount)
  }

  function AfterRecordFailed(cfg: Config, s: State, w: WorkerId): State
    requires Busy(s, w) && s.workers[w].phase.Failing?
  {
    var d := s.workers[w];
    match RecordFailure(s.db, d.todo[0].id, w, d.phase.error, RetryAt(cfg, d), cfg.maxAttempts, d.now)
    case Ok((db, _)) => s.(db := db, workers := Advance(s.workers, w))
    case Err(_) => s.(workers := s.workers - {w})
  }

  function WithOutcome(s: State, name: string, outcome: Outcome): State
    requires name in s.executions
  {
    s.(executions := s.executions[name := s.executions[name].(outcome := outcome)])
  }

  ghost function Next(cfg: Config, s: State, e: Event): State
    requires Enabled(cfg, s, e)
  {
    match e
    case BeginProposal(r, proposal, now) => WithRequest(s, r, BegunProposal(s.db, proposal, now))
    case CommitProposal(r, mid, now) => AfterCommitProposal(s, r, mid, now)
    case ReconsiderProposal(r) => WithRequest(s, r, ReconsideredProposal(s.db, s.requests[r].action))
    case BeginDecision(r, id, principal, approve, comment, now) =>
      WithRequest(s, r, BegunDecision(s.db, id, principal, approve, comment, now))
    case CommitDecision(r) => AfterCommitDecision(s, r)
    case BeginExecution(r, id, principal) => WithRequest(s, r, BegunExecution(s.db, id, principal))
    case CallSupplier(r, now) => AfterCallSupplier(s, r, now)
    case CommitExecution(r) => AfterCommitExecution(s, r)
    case ReconsiderExecution(r) => WithRequest(s, r, ReconsideredExecution(s.db, s.requests[r].id))
    case CrashRequest(r) => s.(requests := s.requests - {r})
    case ClaimBatch(w, now, skipped, claimed) => AfterClaim(s, w, now, claimed)
    case FetchAction(w, readable) => WithPhase(s, w, Fetched(s.db, s.workers[w].todo[0], readable))
    case StartWorkflow(w, fortune) => AfterStart(cfg, s, w, fortune)
    case Acknowledge(w) => AfterAcknowledge(s, w)
    case RecordFailed(w) => AfterRecordFailed(cfg, s, w)
    case CrashWorker(w) => s.(workers := s.workers - {w})
    case Poll(name) => WithOutcome(s, name, Route(s.db.actions[s.executions[name].input.actionId].status))
    case Expire(name) => WithOutcome(s, name, TimedOut)
  }
}
