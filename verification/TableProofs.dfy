/**
 Each transaction keeps the tables consistent.
 */
module TableProofs {
  import opened Model
  import opened Transactions
  import opened Protocol
  import opened Invariant

  lemma PastIsTransitive(a: Action, b: Action, c: Action)
    requires Past(a, b) && Past(b, c)
    ensures Past(a, c)
  {
  }

  lemma TraceSnoc(audit: seq<AuditEvent>, e: AuditEvent, i: ActionId)
    ensures Trace(audit + [e], i) == Trace(audit, i) + if e.actionId == i then [e] else []
  {
    assert (audit + [e])[..|audit|] == audit;
  }

  lemma {:induction false} NoTrace(audit: seq<AuditEvent>, i: ActionId)
    requires forall k | 0 <= k < |audit| :: audit[k].actionId != i
    ensures Trace(audit, i) == []
  {
    if audit != [] {
      NoTrace(audit[..|audit| - 1], i);
    }
  }

  // ---------------------------------------------------------------- create_proposal

  lemma InsertActions(db: Database, action: Action, mid: Uuid, now: Time)
    requires ActionsOk(db.actions) && Unstarted(action) && !Violates(db, action, mid)
    ensures var after := InsertProposal(db, action, mid, now);
            ActionsOk(after.actions) && Grows(db.actions, after.actions)
  {
  }

  lemma InsertLinks(db: Database, action: Action, mid: Uuid, now: Time)
    requires LinksOk(db.actions, db.messages) && Unstarted(action) && action.id !in db.actions && mid !in db.messages
    ensures var after := InsertProposal(db, action, mid, now);
            LinksOk(after.actions, after.messages)
  {
    var after := InsertProposal(db, action, mid, now);
    forall m | m in after.messages ensures LinkOk(after.actions, after.messages[m]) {
      if m != mid {
        assert LinkOk(db.actions, db.messages[m]);
      }
    }
  }

  lemma InsertOneEach(db: Database, action: Action, mid: Uuid, now: Time)
    requires LinksOk(db.actions, db.messages) && OneMessageEach(db.messages) && action.id !in db.actions
             && mid !in db.messages
    ensures OneMessageEach(InsertProposal(db, action, mid, now).messages)
  {
    forall m | m in db.messages ensures db.messages[m].aggregateId != action.id {
      assert LinkOk(db.actions, db.messages[m]);
    }
    var after := InsertProposal(db, action, mid, now).messages;
    forall m, n ensures !MessageClash(after, m, n) {
      assert !MessageClash(db.messages, m, n);
    }
  }

  lemma InsertEnqueued(db: Database, action: Action, mid: Uuid, now: Time)
    requires Enqueued(db) && mid !in db.messages
    ensures Enqueued(InsertProposal(db, action, mid, now))
  {
    var after := InsertProposal(db, action, mid, now);
    forall i | i in after.actions ensures HasMessage(after.messages, i) {
      if i == action.id {
        assert after.messages[mid].aggregateId == i;
      } else {
        assert HasMessage(db.messages, i);
        var m :| m in db.messages && db.messages[m].aggregateId == i;
        assert after.messages[m].aggregateId == i;
      }
    }
  }

  lemma InsertAudit(db: Database, action: Action, mid: Uuid, now: Time)
    requires AuditOk(db) && Unstarted(action) && action.id !in db.actions
    ensures AuditOk(InsertProposal(db, action, mid, now))
  {
    var after := InsertProposal(db, action, mid, now);
    forall i | i in after.actions ensures Tells(Trace(after.audit, i), after.actions[i]) {
      TraceSnoc(db.audit, ProposedEvent(action), i);
      if i == action.id {
        NoTrace(db.audit, i);
      } else {
        assert Tells(Trace(db.audit, i), db.actions[i]);
      }
    }
  }

  lemma InsertKeeps(maxAttempts: nat, db: Database, action: Action, mid: Uuid, now: Time)
    requires maxAttempts > 0 && TablesOk(maxAttempts, db) && Unstarted(action) && !Violates(db, action, mid)
    ensures TablesOk(maxAttempts, InsertProposal(db, action, mid, now))
  {
    InsertActions(db, action, mid, now);
    InsertUnique(db, action, mid, now);
    InsertLinks(db, action, mid, now);
    InsertOneEach(db, action, mid, now);
    InsertEnqueued(db, action, mid, now);
    InsertAudit(db, action, mid, now);
  }

  // ---------------------------------------------------------------- save_transition

  // The transition is one the lifecycle allows, and its event continues the action's history.
  predicate Lawful(db: Database, action: Action, event: AuditEvent) {
    && action.id in db.actions
    && var row := db.actions[action.id];
       var written := WriteTransition(row, action);
       && Past(row, written) && ActionOk(written) && event.actionId == action.id
       && Tells(Trace(db.audit, action.id) + [event], written)
  }

  function Transitioned(db: Database, action: Action, event: AuditEvent): Database
    requires action.id in db.actions
  {
    db.(actions := db.actions[action.id := WriteTransition(db.actions[action.id], action)], audit := db.audit + [event])
  }

  lemma TransitionActions(db: Database, action: Action, event: AuditEvent)
    requires ActionsOk(db.actions) && Lawful(db, action, event)
    ensures var after := Transitioned(db, action, event);
            ActionsOk(after.actions) && Grows(db.actions, after.actions)
  {
  }

  // Keys and tenants stay, so they stay unique.
  lemma GrownUnique(before: map<ActionId, Action>, after: map<ActionId, Action>)
    requires UniqueKeys(before) && Grows(before, after) && after.Keys == before.Keys
    ensures UniqueKeys(after)
  {
    forall i | i in after ensures after[i].tenant == before[i].tenant && after[i].key == before[i].key {
      assert Past(before[i], after[i]);
    }
    forall i, j ensures !KeyClash(after, i, j) {
      assert !KeyClash(before, i, j);
    }
  }

  lemma TransitionLinks(db: Database, action: Action, event: AuditEvent)
    requires LinksOk(db.actions, db.messages) && action.id in db.actions
    ensures LinksOk(Transitioned(db, action, event).actions, db.messages)
  {
    var after := Transitioned(db, action, event);
    forall m | m in db.messages ensures LinkOk(after.actions, db.messages[m]) {
      assert LinkOk(db.actions, db.messages[m]);
    }
  }

  lemma StillEnqueued(before: Database, after: Database)
    requires Enqueued(before) && SameRows(before.messages, after.messages) && after.actions.Keys == before.actions.Keys
    ensures Enqueued(after)
  {
    forall i | i in after.actions ensures HasMessage(after.messages, i) {
      assert HasMessage(before.messages, i);
      var m :| m in before.messages && before.messages[m].aggregateId == i;
      assert SameMessage(before.messages[m], after.messages[m]);
    }
  }

  lemma TransitionAudit(db: Database, action: Action, event: AuditEvent)
    requires AuditOk(db) && Lawful(db, action, event)
    ensures AuditOk(Transitioned(db, action, event))
  {
    var after := Transitioned(db, action, event);
    forall i | i in after.actions ensures Tells(Trace(after.audit, i), after.actions[i]) {
      TraceSnoc(db.audit, event, i);
      assert Tells(Trace(db.audit, i), db.actions[i]);
    }
  }

  lemma TransitionKeeps(maxAttempts: nat, db: Database, action: Action, event: AuditEvent)
    requires TablesOk(maxAttempts, db) && Lawful(db, action, event)
    ensures TablesOk(maxAttempts, Transitioned(db, action, event))
  {
    TransitionActions(db, action, event);
    GrownUnique(db.actions, Transitioned(db, action, event).actions);
    TransitionLinks(db, action, event);
    StillEnqueued(db, Transitioned(db, action, event));
    TransitionAudit(db, action, event);
  }

  // ---------------------------------------------------------------- outbox rows

  // A row keeps what identifies it and what it is about.
  predicate SameMessage(a: Message, b: Message) {
    && a.id == b.id && a.aggregateId == b.aggregateId && a.eventType == b.eventType
    && a.payload == b.payload && a.createdAt == b.createdAt
  }

  predicate SameRows(before: map<Uuid, Message>, after: map<Uuid, Message>) {
    before.Keys == after.Keys && forall m | m in before :: SameMessage(before[m], after[m])
  }

  lemma StillOneEach(before: map<Uuid, Message>, after: map<Uuid, Message>)
    requires OneMessageEach(before) && SameRows(before, after)
    ensures OneMessageEach(after)
  {
    forall m | m in after ensures after[m].aggregateId == before[m].aggregateId {
      assert SameMessage(before[m], after[m]);
    }
    forall m, n ensures !MessageClash(after, m, n) {
      assert !MessageClash(before, m, n);
    }
  }

  // Rows that change only their lease and retry columns stay linked as they were.
  lemma LeaseLinks(actions: map<ActionId, Action>, before: map<Uuid, Message>, after: map<Uuid, Message>)
    requires LinksOk(actions, before) && SameRows(before, after)
    requires forall m | m in before ::
               after[m].publishedAt == before[m].publishedAt && after[m].deliveryResult == before[m].deliveryResult
    ensures LinksOk(actions, after)
  {
    forall m | m in after ensures LinkOk(actions, after[m]) {
      assert LinkOk(actions, before[m]) && SameMessage(before[m], after[m]);
    }
  }

  predicate Claimable(messages: map<Uuid, Message>, claimed: seq<Uuid>) {
    forall k | 0 <= k < |claimed| ::
      claimed[k] in messages && messages[claimed[k]].publishedAt.None? && messages[claimed[k]].deadLetteredAt.None?
  }

  lemma ClaimRows(maxAttempts: nat, messages: map<Uuid, Message>, claimed: seq<Uuid>, w: WorkerId, now: Time)
    requires RowsOk(maxAttempts, messages) && Claimable(messages, claimed)
    ensures RowsOk(maxAttempts, Claim(messages, claimed, w, now))
            && SameRows(messages, Claim(messages, claimed, w, now))
  {
    var after := Claim(messages, claimed, w, now);
    forall m | m in after ensures RowOk(maxAttempts, after[m]) {
      assert RowOk(maxAttempts, messages[m]);
    }
  }

  lemma ClaimKeeps(maxAttempts: nat, db: Database, claimed: seq<Uuid>, w: WorkerId, now: Time)
    requires TablesOk(maxAttempts, db) && Claimable(db.messages, claimed)
    ensures TablesOk(maxAttempts, db.(messages := Claim(db.messages, claimed, w, now)))
  {
    var after := Claim(db.messages, claimed, w, now);
    ClaimRows(maxAttempts, db.messages, claimed, w, now);
    LeaseLinks(db.actions, db.messages, after);
    StillOneEach(db.messages, after);
    StillEnqueued(db, db.(messages := after));
  }

  lemma FailureRows(maxAttempts: nat, messages: map<Uuid, Message>, mid: Uuid, error: string, retryAt: Time,
                    now: Time)
    requires maxAttempts > 0 && RowsOk(maxAttempts, messages) && mid in messages && messages[mid].lockedBy.Some?
    ensures var after := messages[mid := FailedRow(messages[mid], error, retryAt, maxAttempts, now)];
            RowsOk(maxAttempts, after) && SameRows(messages, after)
  {
    var after := messages[mid := FailedRow(messages[mid], error, retryAt, maxAttempts, now)];
    forall m | m in after ensures RowOk(maxAttempts, after[m]) {
      assert RowOk(maxAttempts, messages[m]);
    }
  }

  lemma FailureKeeps(maxAttempts: nat, db: Database, mid: Uuid, error: string, retryAt: Time, now: Time)
    requires maxAttempts > 0 && TablesOk(maxAttempts, db) && mid in db.messages && db.messages[mid].lockedBy.Some?
    ensures var row := FailedRow(db.messages[mid], error, retryAt, maxAttempts, now);
            TablesOk(maxAttempts, db.(messages := db.messages[mid := row]))
  {
    var after := db.messages[mid := FailedRow(db.messages[mid], error, retryAt, maxAttempts, now)];
    FailureRows(maxAttempts, db.messages, mid, error, retryAt, now);
    LeaseLinks(db.actions, db.messages, after);
    StillOneEach(db.messages, after);
    StillEnqueued(db, db.(messages := after));
  }

  function Acknowledged(db: Database, mid: Uuid, reference: string, now: Time): Database
    requires mid in db.messages && db.messages[mid].aggregateId in db.actions
  {
    var id := db.messages[mid].aggregateId;
    db.(actions := db.actions[id := WriteReference(db.actions[id], reference)],
        messages := db.messages[mid := Published(db.messages[mid], reference, now)])
  }

  lemma PublishActions(db: Database, mid: Uuid, reference: string, now: Time)
    requires ActionsOk(db.actions) && mid in db.messages
    requires LinkOk(db.actions, db.messages[mid]) && db.messages[mid].publishedAt.None?
    ensures var after := Acknowledged(db, mid, reference, now);
            ActionsOk(after.actions) && Grows(db.actions, after.actions)
  {
    var after := Acknowledged(db, mid, reference, now).actions;
    forall i | i in after ensures ActionOk(after[i]) {
      assert ActionOk(db.actions[i]);
    }
  }

  lemma PublishRows(maxAttempts: nat, messages: map<Uuid, Message>, mid: Uuid, reference: string, now: Time)
    requires RowsOk(maxAttempts, messages) && mid in messages && messages[mid].lockedBy.Some?
    ensures var after := messages[mid := Published(messages[mid], reference, now)];
            RowsOk(maxAttempts, after) && SameRows(messages, after)
  {
    var after := messages[mid := Published(messages[mid], reference, now)];
    forall m | m in after ensures RowOk(maxAttempts, after[m]) {
      assert RowOk(maxAttempts, messages[m]);
    }
  }

  lemma PublishLinks(db: Database, mid: Uuid, reference: string, now: Time)
    requires LinksOk(db.actions, db.messages) && OneMessageEach(db.messages) && mid in db.messages
    requires LinkOk(db.actions, db.messages[mid])
    ensures var after := Acknowledged(db, mid, reference, now);
            LinksOk(after.actions, after.messages)
  {
    var after := Acknowledged(db, mid, reference, now);
    forall m | m in after.messages ensures LinkOk(after.actions, after.messages[m]) {
      assert LinkOk(db.actions, db.messages[m]);
      assert !MessageClash(db.messages, m, mid);
    }
  }

  lemma PublishAudit(db: Database, mid: Uuid, reference: string, now: Time)
    requires AuditOk(db) && mid in db.messages && db.messages[mid].aggregateId in db.actions
    ensures AuditOk(Acknowledged(db, mid, reference, now))
  {
    var after := Acknowledged(db, mid, reference, now);
    forall i | i in after.actions ensures Tells(Trace(after.audit, i), after.actions[i]) {
      assert Tells(Trace(db.audit, i), db.actions[i]);
    }
  }

  lemma PublishKeeps(maxAttempts: nat, db: Database, mid: Uuid, reference: string, now: Time)
    requires TablesOk(maxAttempts, db) && mid in db.messages && db.messages[mid].lockedBy.Some?
    ensures LinkOk(db.actions, db.messages[mid])
    ensures TablesOk(maxAttempts, Acknowledged(db, mid, reference, now))
  {
    assert LinkOk(db.actions, db.messages[mid]);
    assert RowOk(maxAttempts, db.messages[mid]);
    var after := Acknowledged(db, mid, reference, now);
    PublishActions(db, mid, reference, now);
    GrownUnique(db.actions, after.actions);
    PublishRows(maxAttempts, db.messages, mid, reference, now);
    PublishLinks(db, mid, reference, now);
    StillOneEach(db.messages, after.messages);
    StillEnqueued(db, after);
    PublishAudit(db, mid, reference, now);
  }
}
