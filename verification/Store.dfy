/**
 The tables as mutable rows, and the repositories that update them in place
 (packages/persistence/models.py, packages/outbox/repositories.py, packages/governance/repositories.py).
 Every method is proved to make the change its transaction describes, and no other.
 */
module Store {
  import opened Model
  import opened Transactions

  class ActionRecord {
    const id: ActionId
    const caseId: Uuid
    const reviewId: Uuid
    const tenant: Tenant
    const arguments: Arguments
    const proposer: Subject
    const key: Uuid
    const createdAt: Time
    var status: Status
    var approver: Option<Subject>
    var comment: string
    var reference: Option<string>
    var receipt: Option<Receipt>
    var decidedAt: Option<Time>
    var executedAt: Option<Time>

    function Value(): Action
      reads this
    {
      Action(id, caseId, reviewId, tenant, arguments, status, proposer, approver, comment, key,
             reference, receipt, createdAt, decidedAt, executedAt)
    }

    // The columns of a lifecycle transition.
    method Transition(action: Action)
      modifies this
      ensures Value() == WriteTransition(old(Value()), action)
    {
      status := action.status;
      approver := action.approver;
      comment := action.comment;
      receipt := action.receipt;
      decidedAt := action.decidedAt;
      executedAt := action.executedAt;
    }

    constructor (a: Action)
      ensures Value() == a
    {
      id, caseId, reviewId, tenant, arguments := a.id, a.caseId, a.reviewId, a.tenant, a.arguments;
      proposer, key, createdAt := a.proposer, a.key, a.createdAt;
      status, approver, comment, reference := a.status, a.approver, a.comment, a.reference;
      receipt, decidedAt, executedAt := a.receipt, a.decidedAt, a.executedAt;
    }
  }

  class MessageRecord {
    const id: Uuid
    const aggregateId: ActionId
    const eventType: EventType
    const payload: Payload
    const createdAt: Time
    var attemptCount: nat
    var availableAt: Time
    var lockedAt: Option<Time>
    var lockedBy: Option<WorkerId>
    var publishedAt: Option<Time>
    var deadLetteredAt: Option<Time>
    var lastError: Option<string>
    var deliveryResult: Option<string>

    function Value(): Message
      reads this
    {
      Message(id, aggregateId, eventType, payload, attemptCount, availableAt, lockedAt, lockedBy,
              publishedAt, deadLetteredAt, lastError, deliveryResult, createdAt)
    }

    method Lease(worker: WorkerId, now: Time)
      modifies this
      ensures Value() == Leased(old(Value()), worker, now)
    {
      lockedAt := Some(now);
      lockedBy := Some(worker);
    }

    method Publish(reference: string, now: Time)
      modifies this
      ensures Value() == Published(old(Value()), reference, now)
    {
      publishedAt := Some(now);
      lockedAt := None;
      lockedBy := None;
      lastError := None;
      deliveryResult := Some(reference);
    }

    method Fail(errorType: string, retryAt: Time, maxAttempts: nat, now: Time) returns (deadLettered: bool)
      modifies this
      ensures Value() == FailedRow(old(Value()), errorType, retryAt, maxAttempts, now)
      ensures deadLettered <==> attemptCount >= maxAttempts
    {
      attemptCount := attemptCount + 1;
      lastError := Some(errorType[..if |errorType| <= 255 then |errorType| else 255]);
      lockedAt := None;
      lockedBy := None;
      if attemptCount >= maxAttempts {
        deadLetteredAt := Some(now);
        return true;
      }
      availableAt := retryAt;
      return false;
    }

    constructor (m: Message)
      ensures Value() == m
    {
      id, aggregateId, eventType, payload, createdAt := m.id, m.aggregateId, m.eventType, m.payload, m.createdAt;
      attemptCount, availableAt, lockedAt, lockedBy := m.attemptCount, m.availableAt, m.lockedAt, m.lockedBy;
      publishedAt, deadLetteredAt, lastError, deliveryResult := m.publishedAt, m.deadLetteredAt, m.lastError,
        m.deliveryResult;
    }
  }

  class Tables {
    var actions: map<ActionId, ActionRecord>
    var messages: map<Uuid, MessageRecord>
    var audit: seq<AuditEvent>

    ghost function ActionRows(): set<object>
      reads `actions
    {
      set i | i in actions :: actions[i]
    }

    ghost function MessageRows(): set<object>
      reads `messages
    {
      set m | m in messages :: messages[m]
    }

    ghost function Rows(): set<object>
      reads `actions, `messages
    {
      ActionRows() + MessageRows()
    }

    // Rows are stored under their primary key, so no row is stored twice.
    ghost predicate Valid()
      reads `actions, `messages
    {
      && (forall i | i in actions :: actions[i].id == i)
      && (forall m | m in messages :: messages[m].id == m)
    }

    ghost function ActionValues(): map<ActionId, Action>
      reads `actions, ActionRows()
    {
      map i | i in actions :: actions[i].Value()
    }

    function MessageValues(): map<Uuid, Message>
      reads `messages, set m | m in messages :: messages[m]
    {
      map m | m in messages :: messages[m].Value()
    }

    ghost function Contents(): Database
      reads this, Rows()
    {
      Database(ActionValues(), MessageValues(), audit)
    }

    // The tables hold exactly `db`.
    ghost predicate Hold(db: Database)
      reads this, Rows()
    {
      Valid() && Contents() == db
    }

    // Writing one row changes one value.
    twostate lemma ActionWritten(id: ActionId)
      requires old(Valid()) && actions == old(actions) && id in actions
      requires forall i | i in actions && i != id :: unchanged(actions[i])
      ensures ActionValues() == old(ActionValues())[id := actions[id].Value()]
    {
    }

    twostate lemma MessageWritten(mid: Uuid)
      requires old(Valid()) && messages == old(messages) && mid in messages
      requires forall m | m in messages && m != mid :: unchanged(messages[m])
      ensures MessageValues() == old(MessageValues())[mid := messages[mid].Value()]
    {
    }

    // Rows added since are new objects, so no older reference leads to them.
    twostate predicate OnlyNewRows()
      reads this
    {
      forall row | row in Rows() :: row in old(Rows()) || fresh(row)
    }

    // What the tables hold after a row was stored under a new key.
    twostate lemma ActionAdded(new row: ActionRecord)
      requires old(Valid()) && messages == old(messages) && row.id !in old(actions)
      requires actions == old(actions)[row.id := row]
      requires forall i | i in old(actions) :: unchanged(old(actions)[i])
      requires forall m | m in messages :: unchanged(messages[m])
      ensures ActionValues() == old(ActionValues())[row.id := row.Value()] && MessageValues() == old(MessageValues())
    {
    }

    twostate lemma MessageAdded(new row: MessageRecord)
      requires old(Valid()) && actions == old(actions) && row.id !in old(messages)
      requires messages == old(messages)[row.id := row]
      requires forall m | m in old(messages) :: unchanged(old(messages)[m])
      requires forall i | i in actions :: unchanged(actions[i])
      ensures MessageValues() == old(MessageValues())[row.id := row.Value()] && ActionValues() == old(ActionValues())
    {
    }

    // The new row is nobody else's.
    method AddAction(action: Action, ghost db: Database)
      requires Hold(db) && action.id !in db.actions
      modifies this`actions
      ensures Hold(db.(actions := db.actions[action.id := action])) && OnlyNewRows()
    {
      var row := new ActionRecord(action);
      actions := actions[action.id := row];
      ActionAdded(row);
    }

    method AddMessage(message: Message, ghost db: Database)
      requires Hold(db) && message.id !in db.messages
      modifies this`messages
      ensures Hold(db.(messages := db.messages[message.id := message])) && OnlyNewRows()
    {
      var row := new MessageRecord(message);
      messages := messages[message.id := row];
      MessageAdded(row);
    }

    method AddEvent(event: AuditEvent, ghost db: Database)
      requires Hold(db)
      modifies this`audit
      ensures Hold(db.(audit := db.audit + [event])) && Rows() == old(Rows())
    {
      audit := audit + [event];
    }

    constructor ()
      ensures Valid() && Contents() == Database(map[], map[], []) && Rows() == {}
    {
      actions, messages, audit := map[], map[], [];
    }
  }

  // ---------------------------------------------------------------- choosing rows to claim

  // A row no other candidate precedes.
  method Earliest(messages: map<Uuid, Message>, candidates: set<Uuid>) returns (first: Uuid)
    requires candidates != {} && candidates <= messages.Keys
    ensures first in candidates && forall m | m in candidates :: Before(messages[first], messages[m])
  {
    first :| first in candidates;
    var rest := candidates - {first};
    while rest != {}
      invariant first in candidates && rest <= candidates
      invariant forall m | m in candidates && m !in rest :: Before(messages[first], messages[m])
      decreases rest
    {
      var m :| m in rest;
      if !Before(messages[first], messages[m]) {
        first := m;
      }
      rest := rest - {m};
    }
  }

  // The due rows other transactions have not locked, in dispatch order, up to the batch size.
  method SelectDue(messages: map<Uuid, Message>, skipped: set<Uuid>, batchSize: nat, lockTimeout: Duration, now: Time)
    returns (claimed: seq<Uuid>)
    ensures Selects(messages, skipped, batchSize, lockTimeout, now, claimed)
  {
    claimed := [];
    var candidates := Candidates(messages, skipped, lockTimeout, now);
    var left := candidates;
    while |claimed| < batchSize && left != {}
      invariant |claimed| <= batchSize && left <= candidates && Distinct(claimed)
      invariant forall m | m in candidates :: m in left <==> m !in claimed
      invariant forall i | 0 <= i < |claimed| :: claimed[i] in candidates
      invariant forall i, j | 0 <= i < j < |claimed| :: Before(messages[claimed[i]], messages[claimed[j]])
      invariant forall i, m | 0 <= i < |claimed| && m in left :: Before(messages[claimed[i]], messages[m])
      decreases left
    {
      var first := Earliest(messages, left);
      claimed := claimed + [first];
      left := left - {first};
    }
  }

  // ---------------------------------------------------------------- the outbox repository

  class SqlOutboxRepository {
    const tables: Tables

    constructor (tables: Tables)
      ensures this.tables == tables
    {
      this.tables := tables;
    }

    // `skipped` are the rows other transactions hold locked.
    method ClaimBatch(worker: WorkerId, batchSize: nat, lockTimeout: Duration, now: Time, skipped: set<Uuid>)
      returns (snapshots: seq<Message>, ghost claimed: seq<Uuid>)
      requires tables.Valid()
      modifies tables.MessageRows()
      ensures tables.Valid()
      ensures Selects(old(tables.MessageValues()), skipped, batchSize, lockTimeout, now, claimed)
      ensures tables.Contents() == old(tables.Contents()).(messages :=
                Claim(old(tables.MessageValues()), claimed, worker, now))
      ensures snapshots == Snapshots(tables.MessageValues(), claimed)
    {
      var ids := SelectDue(tables.MessageValues(), skipped, batchSize, lockTimeout, now);
      LeaseAll(ids, worker, now);
      claimed := ids;
      snapshots := Snapshots(tables.MessageValues(), ids);
    }

    // Leases each selected row to the worker at the claim's time.
    method LeaseAll(ids: seq<Uuid>, worker: WorkerId, now: Time)
      requires tables.Valid() && forall k | 0 <= k < |ids| :: ids[k] in tables.messages
      modifies tables.MessageRows()
      ensures tables.MessageValues() == Claim(old(tables.MessageValues()), ids, worker, now)
    {
      ghost var before := tables.MessageValues();
      for k := 0 to |ids|
        invariant tables.MessageValues() == Claim(before, ids[..k], worker, now)
      {
        var row := tables.messages[ids[k]];
        row.Lease(worker, now);
        assert ids[..k + 1] == ids[..k] + [ids[k]];
      }
      assert ids[..|ids|] == ids;
    }

    method MarkPublished(mid: Uuid, worker: WorkerId, deliveryResult: string, now: Time, ghost db: Database)
      returns (r: Result<bool, OutboxError>)
      requires tables.Hold(db)
      modifies tables.Rows()
      ensures tables.Rows() == old(tables.Rows())
      ensures match Transactions.MarkPublished(db, mid, worker, deliveryResult, now)
              case Ok(after) => r.Ok? && tables.Hold(after)
              case Err(e) => r == Err(e) && tables.Hold(db)
    {
      if mid !in tables.messages {
        return Err(MessageNotFound);
      }
      var record := tables.messages[mid];
      if record.publishedAt.Some? {
        return Ok(true);
      }
      if record.lockedBy != Some(worker) {
        return Err(LeaseLost);
      }
      if record.eventType != ApprovalWorkflowStart || deliveryResult == ""
        || record.payload.actionId !in tables.actions {
        return Err(InvalidDelivery);
      }
      var action := tables.actions[record.payload.actionId];
      action.reference := Some(deliveryResult);
      record.Publish(deliveryResult, now);
      assert action.Value() == WriteReference(old(action.Value()), deliveryResult);
      tables.ActionWritten(action.id);
      tables.MessageWritten(mid);
      return Ok(true);
    }

    method RecordFailure(mid: Uuid, worker: WorkerId, errorType: string, retryAt: Time, maxAttempts: nat, now: Time,
                         ghost db: Database)
      returns (r: Result<bool, OutboxError>)
      requires tables.Hold(db)
      modifies tables.MessageRows()
      ensures tables.Rows() == old(tables.Rows())
      ensures match Transactions.RecordFailure(db, mid, worker, errorType, retryAt, maxAttempts, now)
              case Ok((after, deadLettered)) => r == Ok(deadLettered) && tables.Hold(after)
              case Err(e) => r == Err(e) && tables.Hold(db)
    {
      if mid !in tables.messages {
        return Err(MessageNotFound);
      }
      var record := tables.messages[mid];
      if record.lockedBy != Some(worker) {
        return Err(LeaseLost);
      }
      var deadLettered := record.Fail(errorType, retryAt, maxAttempts, now);
      tables.MessageWritten(mid);
      return Ok(deadLettered);
    }
  }

  // ---------------------------------------------------------------- the action repository

  datatype CreateError = IntegrityError

  // A proposal another request commits between this one's look-up and its commit.
  datatype Rival = NoRival | Rival(action: Action, mid: Uuid)

  ghost function AfterRival(db: Database, rival: Rival, now: Time): Database {
    if rival.Rival? && !Violates(db, rival.action, rival.mid) then InsertProposal(db, rival.action, rival.mid, now)
      else db
  }

  // Commit, or look up again when the commit was refused.
  ghost function CommitOrFind(db: Database, action: Action, mid: Uuid, now: Time)
    : (Result<(Action, bool), CreateError>, Database) {
    if !Violates(db, action, mid) then (Ok((action, true)), InsertProposal(db, action, mid, now))
    else
      var winner := FindByKey(db, action.tenant, action.key);
      (if winner.Some? then Ok((winner.value, false)) else Err(IntegrityError), db)
  }

  ghost function Create(db: Database, action: Action, mid: Uuid, now: Time, rival: Rival)
    : (Result<(Action, bool), CreateError>, Database)
  {
    var existing := FindByKey(db, action.tenant, action.key);
    if existing.Some? then (Ok((existing.value, false)), db)
    else CommitOrFind(AfterRival(db, rival, now), action, mid, now)
  }

  // A matching row is the one `FindByKey` finds.
  lemma OnlyMatch(db: Database, tenant: Tenant, key: Uuid, i: ActionId)
    requires UniqueKeys(db.actions) && i in db.actions && db.actions[i].tenant == tenant && db.actions[i].key == key
    ensures FindByKey(db, tenant, key) == Some(db.actions[i])
  {
    var found := FindByKey(db, tenant, key).value;
    var j :| j in db.actions && db.actions[j] == found;
    assert !KeyClash(db.actions, i, j);
  }

  class SqlActionRepository {
    const tables: Tables

    constructor (tables: Tables)
      ensures this.tables == tables
    {
      this.tables := tables;
    }

    method GetByIdempotency(tenant: Tenant, key: Uuid, ghost db: Database) returns (found: Option<Action>)
      requires tables.Hold(db) && UniqueKeys(db.actions)
      ensures tables.Hold(db) && found == FindByKey(db, tenant, key)
    {
      var left := tables.actions.Keys;
      while left != {}
        invariant left <= tables.actions.Keys
        invariant forall i | i in tables.actions && i !in left ::
                    !(tables.actions[i].tenant == tenant && tables.actions[i].key == key)
        decreases left
      {
        var i :| i in left;
        if tables.actions[i].tenant == tenant && tables.actions[i].key == key {
          found := Some(tables.actions[i].Value());
          OnlyMatch(db, tenant, key, i);
          return;
        }
        left := left - {i};
      }
      found := None;
    }

    method CreateProposal(action: Action, mid: Uuid, now: Time, rival: Rival, ghost db: Database)
      returns (r: Result<(Action, bool), CreateError>)
      requires tables.Hold(db) && UniqueKeys(db.actions)
      modifies tables
      ensures tables.OnlyNewRows()
      ensures r == Create(db, action, mid, now, rival).0 && tables.Hold(Create(db, action, mid, now, rival).1)
    {
      var existing := GetByIdempotency(action.tenant, action.key, db);
      if existing.Some? {
        return Ok((existing.value, false));
      }
      LetRivalCommit(rival, now, db);
      r := CommitOrLookUp(action, mid, now, AfterRival(db, rival, now));
    }

    // What may happen between the look-up and the commit.
    method LetRivalCommit(rival: Rival, now: Time, ghost db: Database)
      requires tables.Hold(db) && UniqueKeys(db.actions)
      modifies tables
      ensures tables.OnlyNewRows()
      ensures tables.Hold(AfterRival(db, rival, now)) && UniqueKeys(AfterRival(db, rival, now).actions)
    {
      if rival.Rival? {
        var _ := Commit(rival.action, rival.mid, now, db);
      }
    }

    method CommitOrLookUp(action: Action, mid: Uuid, now: Time, ghost db: Database)
      returns (r: Result<(Action, bool), CreateError>)
      requires tables.Hold(db) && UniqueKeys(db.actions)
      modifies tables
      ensures tables.OnlyNewRows()
      ensures r == CommitOrFind(db, action, mid, now).0 && tables.Hold(CommitOrFind(db, action, mid, now).1)
    {
      var committed := Commit(action, mid, now, db);
      if committed {
        return Ok((action, true));
      }
      var existing := GetByIdempotency(action.tenant, action.key, db);
      if existing.None? {
        return Err(IntegrityError);
      }
      return Ok((existing.value, false));
    }

    // All three rows, or none when a constraint refuses them.
    method Commit(action: Action, mid: Uuid, now: Time, ghost db: Database) returns (committed: bool)
      requires tables.Hold(db) && UniqueKeys(db.actions)
      modifies tables
      ensures tables.OnlyNewRows()
      ensures committed <==> !Violates(db, action, mid)
      ensures var after := if committed then InsertProposal(db, action, mid, now) else db;
              tables.Hold(after) && UniqueKeys(after.actions)
    {
      var refused := Conflicts(action, mid, db);
      if refused {
        return false;
      }
      InsertUnique(db, action, mid, now);
      AddRows(action, mid, now, db);
      return true;
    }

    method AddRows(action: Action, mid: Uuid, now: Time, ghost db: Database)
      requires tables.Hold(db) && action.id !in db.actions && mid !in db.messages
      modifies tables
      ensures tables.Hold(InsertProposal(db, action, mid, now)) && tables.OnlyNewRows()
    {
      tables.AddAction(NewRow(action), db);
      ghost var withAction := db.(actions := db.actions[action.id := NewRow(action)]);
      tables.AddMessage(NewMessage(mid, action, now), withAction);
      tables.AddEvent(ProposedEvent(action), withAction.(messages := db.messages[mid := NewMessage(mid, action, now)]));
    }

    // Whether the database would refuse the insert.
    method Conflicts(action: Action, mid: Uuid, ghost db: Database) returns (refused: bool)
      requires tables.Hold(db) && UniqueKeys(db.actions)
      ensures tables.Hold(db) && (refused <==> Violates(db, action, mid))
    {
      var found := GetByIdempotency(action.tenant, action.key, db);
      if found.Some? || action.id in tables.actions || mid in tables.messages {
        return true;
      }
      var left := tables.messages.Keys;
      while left != {}
        invariant left <= tables.messages.Keys
        invariant forall m | m in tables.messages && m !in left ::
                    !(tables.messages[m].aggregateId == action.id
                        && tables.messages[m].eventType == ApprovalWorkflowStart)
        decreases left
      {
        var m :| m in left;
        if tables.messages[m].aggregateId == action.id && tables.messages[m].eventType == ApprovalWorkflowStart {
          assert db.messages[m].aggregateId == action.id;
          return true;
        }
        left := left - {m};
      }
      return false;
    }

    method Get(id: ActionId) returns (r: Result<Action, ActionError>)
      requires tables.Valid()
      ensures r == if id in tables.Contents().actions then Ok(tables.Contents().actions[id]) else Err(ActionNotFound)
    {
      if id !in tables.actions {
        return Err(ActionNotFound);
      }
      return Ok(tables.actions[id].Value());
    }

    method SaveTransition(action: Action, event: AuditEvent, expected: Status, ghost db: Database)
      returns (r: Result<Action, ActionError>)
      requires tables.Hold(db)
      modifies tables`audit, tables.ActionRows()
      ensures tables.Rows() == old(tables.Rows())
      ensures match Transactions.SaveTransition(db, action, event, expected)
              case Ok(after) => r == Ok(action) && tables.Hold(after)
              case Err(e) => r == Err(e) && tables.Hold(db)
    {
      if action.id !in tables.actions {
        return Err(ActionNotFound);
      }
      var record := tables.actions[action.id];
      if record.status != expected {
        return Err(TransitionConflict(record.status));
      }
      record.Transition(action);
      tables.ActionWritten(action.id);
      tables.AddEvent(event, db.(actions := db.actions[action.id := record.Value()]));
      return Ok(action);
    }
  }
}
