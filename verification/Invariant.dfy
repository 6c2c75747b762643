/**
 What holds in every reachable state of the protocol.
 */
module Invariant {
  import opened Model
  import opened Transactions
  import opened Approvals
  import opened Protocol

  // Hexadecimal text tells ids apart, and the ARN names a state machine.
  ghost predicate Sound(cfg: Config) {
    && (forall i, j :: cfg.hex(i) == cfg.hex(j) ==> i == j)
    && WellFormed(cfg.machine) && cfg.maxAttempts > 0
  }

  function NameFor(cfg: Config, id: ActionId): string {
    ExecutionName(cfg.hex(id))
  }

  function ReferenceFor(cfg: Config, id: ActionId): string {
    ServiceArn(cfg.machine, NameFor(cfg, id))
  }

  // ---------------------------------------------------------------- how an action may change

  predicate Reaches(p: Status, q: Status) {
    || p == q
    || (p == PendingApproval && (q == Status.Approved || q == Status.Rejected || q == Status.Executed))
    || (p == Status.Approved && q == Status.Executed)
  }

  // What a proposal fixes for good.
  predicate SameProposal(a: Action, b: Action) {
    (a.id, a.caseId, a.reviewId, a.tenant, a.arguments, a.proposer, a.key, a.createdAt)
    == (b.id, b.caseId, b.reviewId, b.tenant, b.arguments, b.proposer, b.key, b.createdAt)
  }

  // `a` is an earlier version of `b`: decisions, receipts and references are written once.
  predicate Past(a: Action, b: Action) {
    var decision := a.status != PendingApproval
      ==> (b.approver, b.comment, b.decidedAt) == (a.approver, a.comment, a.decidedAt);
    var execution := a.status == Status.Executed ==> (b.receipt, b.executedAt) == (a.receipt, a.executedAt);
    var reference := a.reference.Some? ==> b.reference == a.reference;
    SameProposal(a, b) && Reaches(a.status, b.status) && decision && execution && reference
  }

  predicate Grows(before: map<ActionId, Action>, after: map<ActionId, Action>) {
    forall i | i in before :: i in after && Past(before[i], after[i])
  }

  // ---------------------------------------------------------------- tables

  predicate Independent(a: Action) {
    a.approver.Some? && a.approver.value != a.proposer && a.decidedAt.Some?
  }

  predicate Undecided(a: Action) {
    a.approver.None? && a.decidedAt.None? && Unexecuted(a)
  }

  predicate Unexecuted(a: Action) {
    a.receipt.None? && a.executedAt.None?
  }

  predicate ActionOk(a: Action) {
    match a.status
    case PendingApproval => Undecided(a)
    case Approved => Independent(a) && Unexecuted(a)
    case Rejected => Independent(a) && Unexecuted(a)
    case Executed => Independent(a) && a.receipt.Some? && a.executedAt == Some(a.receipt.value.executedAt)
    case Failed => false
  }

  predicate ActionsOk(actions: map<ActionId, Action>) {
    && (forall i | i in actions :: actions[i].id == i)
    && (forall i {:trigger ActionOk(actions[i])} | i in actions :: ActionOk(actions[i]))
  }

  // Lease, publication and dead-lettering of one row.
  predicate RowOk(maxAttempts: nat, m: Message) {
    var lease := (m.lockedAt.Some? <==> m.lockedBy.Some?)
      && (m.publishedAt.Some? || m.deadLetteredAt.Some? ==> m.lockedBy.None?);
    var ends := m.publishedAt.None? || m.deadLetteredAt.None?;
    var attempts := m.attemptCount <= maxAttempts && (m.deadLetteredAt.Some? <==> m.attemptCount == maxAttempts);
    lease && ends && attempts
  }

  // A message is about its action, and published exactly when the action's reference is set.
  predicate LinkOk(actions: map<ActionId, Action>, m: Message) {
    && m.aggregateId in actions
    && m.eventType == ApprovalWorkflowStart
    && m.payload == Payload(m.aggregateId, actions[m.aggregateId].caseId, actions[m.aggregateId].tenant)
    && (m.publishedAt.Some? <==> actions[m.aggregateId].reference.Some?)
    && m.deliveryResult == actions[m.aggregateId].reference
  }

  predicate RowsOk(maxAttempts: nat, messages: map<Uuid, Message>) {
    && (forall m | m in messages :: messages[m].id == m)
    && (forall m {:trigger RowOk(maxAttempts, messages[m])} | m in messages :: RowOk(maxAttempts, messages[m]))
  }

  predicate LinksOk(actions: map<ActionId, Action>, messages: map<Uuid, Message>) {
    forall m {:trigger LinkOk(actions, messages[m])} | m in messages :: LinkOk(actions, messages[m])
  }

  predicate MessageClash(messages: map<Uuid, Message>, m: Uuid, n: Uuid) {
    m in messages && n in messages && m != n && messages[m].aggregateId == messages[n].aggregateId
  }

  ghost predicate OneMessageEach(messages: map<Uuid, Message>) {
    forall m, n :: !MessageClash(messages, m, n)
  }

  ghost predicate HasMessage(messages: map<Uuid, Message>, i: ActionId) {
    exists m :: m in messages && messages[m].aggregateId == i
  }

  ghost predicate Enqueued(db: Database) {
    forall i {:trigger HasMessage(db.messages, i)} | i in db.actions :: HasMessage(db.messages, i)
  }

  // ---------------------------------------------------------------- audit

  function Trace(audit: seq<AuditEvent>, i: ActionId): seq<AuditEvent> {
    if audit == [] then []
    else
      var last := audit[|audit| - 1];
      Trace(audit[..|audit| - 1], i) + if last.actionId == i then [last] else []
  }

  // The events a row's history must consist of.
  predicate Tells(trace: seq<AuditEvent>, a: Action) {
    match a.status
    case PendingApproval => trace == [ProposedEvent(a)]
    case Approved => trace == [ProposedEvent(a), DecisionEvent(a)]
    case Rejected => trace == [ProposedEvent(a), DecisionEvent(a)]
    case Executed =>
      |trace| == 3 && trace[0] == ProposedEvent(a)
      && trace[1] == AuditEvent(ActionApproved, a.id, a.caseId, a.approver.GetOr(""))
      && trace[2] == ExecutionEvent(a, trace[2].actor)
    case Failed => false
  }

  predicate AuditOk(db: Database) {
    && (forall i {:trigger Trace(db.audit, i)} | i in db.actions :: Tells(Trace(db.audit, i), db.actions[i]))
    && (forall k | 0 <= k < |db.audit| :: db.audit[k].actionId in db.actions)
  }

  ghost predicate TablesOk(maxAttempts: nat, db: Database) {
    var actions := ActionsOk(db.actions) && UniqueKeys(db.actions) && AuditOk(db);
    var tables :=
      && actions && RowsOk(maxAttempts, db.messages) && LinksOk(db.actions, db.messages)
      && OneMessageEach(db.messages) && Enqueued(db);
    tables
  }

  // ---------------------------------------------------------------- external services

  predicate OutcomeOk(outcome: Outcome, status: Status) {
    match outcome
    case Running => true
    case Succeeded => status == Status.Approved || status == Status.Executed
    case RejectedOutcome => status == Status.Rejected
    case UnexpectedOutcome => false
    case TimedOut => true
  }

  predicate ExecutionOk(cfg: Config, actions: map<ActionId, Action>, name: string, e: Execution) {
    && e.input.actionId in actions && name == NameFor(cfg, e.input.actionId)
    && OutcomeOk(e.outcome, actions[e.input.actionId].status)
  }

  predicate ExecutionsOk(cfg: Config, actions: map<ActionId, Action>, x: Executions) {
    forall name {:trigger ExecutionOk(cfg, actions, name, x[name])} | name in x ::
      ExecutionOk(cfg, actions, name, x[name])
  }

  // The reference is the one of an execution started for this action.
  predicate IsReference(cfg: Config, x: Executions, id: ActionId, reference: string) {
    && reference == ReferenceFor(cfg, id)
    && NameFor(cfg, id) in x && x[NameFor(cfg, id)].input.actionId == id
  }

  predicate ReferencesOk(cfg: Config, actions: map<ActionId, Action>, x: Executions) {
    forall i {:trigger IsReference(cfg, x, i, actions[i].reference.value)} | i in actions
      && actions[i].reference.Some? ::
      IsReference(cfg, x, i, actions[i].reference.value)
  }

  // A receipt was given for some action with that key, once approved.
  predicate ReceiptOk(actions: map<ActionId, Action>, key: Uuid, receipt: Receipt) {
    && receipt.actionId in actions
    && var a := actions[receipt.actionId];
       a.key == key && receipt.decision == a.arguments.decision && Independent(a)
       && (a.status == Status.Approved || a.status == Status.Executed)
  }

  predicate ReceiptKept(receipts: map<Uuid, Receipt>, a: Action) {
    a.status == Status.Executed ==> a.key in receipts && a.receipt == Some(receipts[a.key])
  }

  predicate ReceiptsOk(actions: map<ActionId, Action>, receipts: map<Uuid, Receipt>) {
    var given := forall k {:trigger ReceiptOk(actions, k, receipts[k])} | k in receipts ::
      ReceiptOk(actions, k, receipts[k]);
    var kept := given && forall i {:trigger ReceiptKept(receipts, actions[i])} | i in actions ::
      ReceiptKept(receipts, actions[i]);
    kept
  }

  // ---------------------------------------------------------------- local state

  predicate Unstarted(a: Action) {
    a.status == PendingApproval && Undecided(a) && a.reference.None?
  }

  predicate Known(actions: map<ActionId, Action>, a: Action) {
    a.id in actions && Past(a, actions[a.id])
  }

  predicate ApprovedCopy(actions: map<ActionId, Action>, a: Action) {
    a.status == Status.Approved && ActionOk(a) && Known(actions, a)
  }

  predicate AnswerOk(actions: map<ActionId, Action>, receipts: map<Uuid, Receipt>, answer: Answer) {
    match answer
    case Stored(a) => Known(actions, a)
    case Receipted(id, receipt) =>
      id in actions && actions[id].status == Status.Executed && actions[id].receipt == Some(receipt)
    case Failure(_) => true
  }

  predicate RequestOk(actions: map<ActionId, Action>, receipts: map<Uuid, Receipt>, request: Request) {
    match request
    case ProposalReady(a) => Unstarted(a)
    case ProposalRefused(a) => Unstarted(a)
    case DecisionReady(d) =>
      && d.id in actions && SameProposal(d, actions[d.id])
      && (d.status == Status.Approved || d.status == Status.Rejected) && ActionOk(d)
      && (d.reference.Some? ==> actions[d.id].reference == d.reference)
    case SupplierCall(a, _) => ApprovedCopy(actions, a)
    case ExecutionReady(a, receipt, _) => ApprovedCopy(actions, a) && a.key in receipts && receipts[a.key] == receipt
    case ExecutionRefused(id) => id in actions && actions[id].status == Status.Executed
    case Returned(answer) => AnswerOk(actions, receipts, answer)
  }

  // While a worker still holds the lease its snapshot was made with, the row is that snapshot.
  predicate SnapshotOk(messages: map<Uuid, Message>, w: WorkerId, now: Time, m: Message) {
    && m.id in messages && m.aggregateId == messages[m.id].aggregateId
    && m.lockedBy == Some(w) && m.lockedAt == Some(now) && m.availableAt <= now
    && (messages[m.id].lockedBy == Some(w) ==> messages[m.id] == m)
  }

  predicate PhaseOk(cfg: Config, db: Database, x: Executions, m: Message, phase: Phase) {
    match phase
    case Fetching => true
    case Starting(a) => a.id == m.aggregateId && Known(db.actions, a)
    case Acknowledging(reference) => IsReference(cfg, x, m.aggregateId, reference)
    case Failing(_) => true
  }

  predicate DispatchOk(cfg: Config, db: Database, x: Executions, w: WorkerId, d: Dispatch) {
    && d.todo != []
    && (forall i, j | 0 <= i < j < |d.todo| :: d.todo[i].id != d.todo[j].id)
    && (forall k | 0 <= k < |d.todo| :: SnapshotOk(db.messages, w, d.now, d.todo[k]))
    && PhaseOk(cfg, db, x, d.todo[0], d.phase)
  }

  predicate RequestsOk(s: State) {
    forall r {:trigger RequestOk(s.db.actions, s.receipts, s.requests[r])} | r in s.requests ::
      RequestOk(s.db.actions, s.receipts, s.requests[r])
  }

  predicate WorkersOk(cfg: Config, s: State) {
    forall w {:trigger DispatchOk(cfg, s.db, s.executions, w, s.workers[w])} | w in s.workers ::
      DispatchOk(cfg, s.db, s.executions, w, s.workers[w])
  }

  ghost predicate Inv(cfg: Config, s: State) {
    var shared :=
      && TablesOk(cfg.maxAttempts, s.db)
      && ExecutionsOk(cfg, s.db.actions, s.executions) && ReferencesOk(cfg, s.db.actions, s.executions)
      && ReceiptsOk(s.db.actions, s.receipts);
    var everything := shared && RequestsOk(s) && WorkersOk(cfg, s);
    everything
  }

  lemma InitialInv(cfg: Config)
    ensures Inv(cfg, INITIAL)
  {
  }
}
