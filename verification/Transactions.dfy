/**
 Every database transaction of the governance and outbox repositories, as a function from the
 tables before to the tables after (packages/governance/repositories.py, packages/outbox/repositories.py).
 */
module Transactions {
  import opened Model

  datatype ActionError = ActionNotFound | TransitionConflict(current: Status)
  datatype OutboxError = MessageNotFound | LeaseLost | InvalidDelivery

  // ---------------------------------------------------------------- create_proposal

  ghost function FindByKey(db: Database, tenant: Tenant, key: Uuid): (found: Option<Action>)
    ensures found.Some? ==>
              exists i :: i in db.actions && db.actions[i] == found.value && found.value.tenant == tenant
                && found.value.key == key
    ensures found.None? ==> forall i | i in db.actions :: !(db.actions[i].tenant == tenant && db.actions[i].key == key)
  {
    if exists i :: i in db.actions && db.actions[i].tenant == tenant && db.actions[i].key == key then
      var i :| i in db.actions && db.actions[i].tenant == tenant && db.actions[i].key == key;
      Some(db.actions[i])
    else None
  }

  // The unique constraint on tenant and key.
  predicate KeyClash(actions: map<ActionId, Action>, i: ActionId, j: ActionId) {
    i in actions && j in actions && i != j && actions[i].tenant == actions[j].tenant && actions[i].key == actions[j].key
  }

  ghost predicate UniqueKeys(actions: map<ActionId, Action>) {
    forall i, j :: !KeyClash(actions, i, j)
  }

  function NewMessage(mid: Uuid, action: Action, now: Time): Message {
    Message(mid, action.id, ApprovalWorkflowStart, Payload(action.id, action.caseId, action.tenant),
            0, now, None, None, None, None, None, None, now)
  }

  function ProposedEvent(action: Action): AuditEvent {
    AuditEvent(ActionProposed, action.id, action.caseId, action.proposer)
  }

  // A primary key or unique constraint would be violated.
  ghost predicate Violates(db: Database, action: Action, mid: Uuid) {
    || action.id in db.actions
    || (exists i :: i in db.actions && db.actions[i].tenant == action.tenant && db.actions[i].key == action.key)
    || mid in db.messages
    || (exists m :: m in db.messages && db.messages[m].aggregateId == action.id
         && db.messages[m].eventType == ApprovalWorkflowStart)
  }

  // `_record_from_action` writes no receipt, whatever the action carries.
  function NewRow(action: Action): Action {
    action.(receipt := None)
  }

  function InsertProposal(db: Database, action: Action, mid: Uuid, now: Time): Database {
    Database(db.actions[action.id := NewRow(action)],
             db.messages[mid := NewMessage(mid, action, now)],
             db.audit + [ProposedEvent(action)])
  }

  lemma InsertUnique(db: Database, action: Action, mid: Uuid, now: Time)
    requires UniqueKeys(db.actions) && !Violates(db, action, mid)
    ensures UniqueKeys(InsertProposal(db, action, mid, now).actions)
  {
    var after := InsertProposal(db, action, mid, now).actions;
    forall i, j ensures !KeyClash(after, i, j) {
      assert !KeyClash(db.actions, i, j);
    }
  }

  // ---------------------------------------------------------------- save_transition

  // The columns a transition writes; the workflow reference is not one of them.
  function WriteTransition(row: Action, action: Action): Action {
    row.(status := action.status, approver := action.approver, comment := action.comment,
         receipt := action.receipt, decidedAt := action.decidedAt, executedAt := action.executedAt)
  }

  function SaveTransition(db: Database, action: Action, event: AuditEvent, expected: Status)
    : (Result<Database, ActionError>)
  {
    if action.id !in db.actions then Err(ActionNotFound)
    else if db.actions[action.id].status != expected then Err(TransitionConflict(db.actions[action.id].status))
    else Ok(db.(actions := db.actions[action.id := WriteTransition(db.actions[action.id], action)],
                audit := db.audit + [event]))
  }

  // ---------------------------------------------------------------- claim_batch

  predicate Due(m: Message, lockTimeout: Duration, now: Time) {
    var open := m.publishedAt.None? && m.deadLetteredAt.None? && m.availableAt <= now;
    open && (m.lockedAt.None? || m.lockedAt.value <= now - lockTimeout)
  }

  predicate Before(a: Message, b: Message) {
    a.availableAt < b.availableAt || (a.availableAt == b.availableAt && a.createdAt <= b.createdAt)
  }

  function Leased(m: Message, worker: WorkerId, now: Time): Message {
    m.(lockedAt := Some(now), lockedBy := Some(worker))
  }

  predicate Distinct<T(==)>(s: seq<T>) {
    forall i, j | 0 <= i < j < |s| :: s[i] != s[j]
  }

  // The rows a claim may take: due, and not row-locked by a concurrent claim.
  function Candidates(messages: map<Uuid, Message>, skipped: set<Uuid>, lockTimeout: Duration, now: Time): set<Uuid> {
    set m | m in messages && m !in skipped && Due(messages[m], lockTimeout, now)
  }

  // `claimed` is a prefix of length at most `batchSize` of the candidates in dispatch order.
  ghost predicate Selects(messages: map<Uuid, Message>, skipped: set<Uuid>, batchSize: nat, lockTimeout: Duration,
                          now: Time,
                          claimed: seq<Uuid>)
  {
    var candidates := Candidates(messages, skipped, lockTimeout, now);
    && Distinct(claimed)
    && (forall i | 0 <= i < |claimed| :: claimed[i] in candidates)
    && (forall i, j | 0 <= i < j < |claimed| :: Before(messages[claimed[i]], messages[claimed[j]]))
    && |claimed| <= batchSize
    && (|claimed| < batchSize ==> forall m | m in candidates :: m in claimed)
    && (forall i, m | 0 <= i < |claimed| && m in candidates && m !in claimed ::
         Before(messages[claimed[i]], messages[m]))
  }

  function Claim(messages: map<Uuid, Message>, claimed: seq<Uuid>, worker: WorkerId, now: Time): map<Uuid, Message> {
    map m | m in messages :: if m in claimed then Leased(messages[m], worker, now) else messages[m]
  }

  function Snapshots(messages: map<Uuid, Message>, ids: seq<Uuid>): (snapshots: seq<Message>)
    requires forall i | 0 <= i < |ids| :: ids[i] in messages
    ensures |snapshots| == |ids| && forall i | 0 <= i < |ids| :: snapshots[i] == messages[ids[i]]
  {
    seq(|ids|, i requires 0 <= i < |ids| => messages[ids[i]])
  }

  // ---------------------------------------------------------------- mark_published

  function Published(m: Message, reference: string, now: Time): Message {
    m.(publishedAt := Some(now), lockedAt := None, lockedBy := None, lastError := None,
        deliveryResult := Some(reference))
  }

  function WriteReference(row: Action, reference: string): Action {
    row.(reference := Some(reference))
  }

  function MarkPublished(db: Database, mid: Uuid, worker: WorkerId, reference: string, now: Time)
    : Result<Database, OutboxError>
  {
    if mid !in db.messages then Err(MessageNotFound)
    else
      var m := db.messages[mid];
      if m.publishedAt.Some? then Ok(db)
      else if m.lockedBy != Some(worker) then Err(LeaseLost)
      else if m.eventType != ApprovalWorkflowStart || reference == "" || m.payload.actionId !in db.actions
        then Err(InvalidDelivery)
      else
        var id := m.payload.actionId;
        Ok(db.(actions := db.actions[id := WriteReference(db.actions[id], reference)],
               messages := db.messages[mid := Published(m, reference, now)]))
  }

  // ---------------------------------------------------------------- record_failure

  function Truncated(s: string): string {
    s[..if |s| <= 255 then |s| else 255]
  }

  function FailedRow(m: Message, error: string, retryAt: Time, maxAttempts: nat, now: Time): Message {
    var released := m.(attemptCount := m.attemptCount + 1, lastError := Some(Truncated(error)), lockedAt := None,
        lockedBy := None);
    if released.attemptCount >= maxAttempts then released.(deadLetteredAt := Some(now))
    else released.(availableAt := retryAt)
  }

  // The value says whether the message was dead-lettered.
  function RecordFailure(db: Database, mid: Uuid, worker: WorkerId, error: string, retryAt: Time, maxAttempts: nat,
                         now: Time)
    : Result<(Database, bool), OutboxError>
  {
    if mid !in db.messages then Err(MessageNotFound)
    else if db.messages[mid].lockedBy != Some(worker) then Err(LeaseLost)
    else
      var row := FailedRow(db.messages[mid], error, retryAt, maxAttempts, now);
      Ok((db.(messages := db.messages[mid := row]), row.attemptCount >= maxAttempts))
  }

  // ---------------------------------------------------------------- retry delay

  function Pow2(n: nat): (p: nat)
    ensures p > 0
  {
    if n == 0 then 1 else 2 * Pow2(n - 1)
  }

  // The base doubled with every attempt, twenty times at most, and never above the maximum.
  function RetryDelay(base: Duration, max: Duration, attempts: nat): Duration {
    var delay := base * Pow2(if attempts <= 20 then attempts else 20);
    if delay <= max then delay else max
  }
}
