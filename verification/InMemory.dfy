/**
 The in-memory action repository (packages/governance/repositories.py:64-129): its rollback, when it keeps
 its two maps consistent, and when it answers as the SQL repository does.
 */
module InMemory {
  import opened Model
  import opened Transactions
  import opened Store

  datatype Key = Key(tenant: Tenant, key: Uuid)

  function KeyOf(a: Action): Key {
    Key(a.tenant, a.key)
  }

  datatype Memory = Memory(actions: map<ActionId, Action>, idempotency: map<Key, ActionId>, audit: seq<AuditEvent>)

  // The optional audit writer, and whether this call of it raises.
  datatype Writer = Absent | Writes | Raises

  datatype MemoryError = Missing | NotFound | Conflict(current: Status) | AuditFailed

  // ---------------------------------------------------------------- what the methods do

  function Audited(audit: seq<AuditEvent>, event: AuditEvent, writer: Writer): seq<AuditEvent> {
    if writer.Writes? then audit + [event] else audit
  }

  function CreateIn(m: Memory, action: Action, event: AuditEvent, writer: Writer)
    : (Memory, Result<(Action, bool), MemoryError>) {
    var key := KeyOf(action);
    if key in m.idempotency then
      (m, if m.idempotency[key] in m.actions then Ok((m.actions[m.idempotency[key]], false)) else Err(Missing))
    else if writer.Raises? then
      (m.(actions := m.actions - {action.id}), Err(AuditFailed))
    else
      (Memory(m.actions[action.id := action], m.idempotency[key := action.id], Audited(m.audit, event, writer)),
          Ok((action, true)))
  }

  function SaveIn(m: Memory, action: Action, event: AuditEvent, expected: Status, writer: Writer)
    : (Memory, Result<Action, MemoryError>) {
    if action.id !in m.actions then (m, Err(NotFound))
    else if m.actions[action.id].status != expected then (m, Err(Conflict(m.actions[action.id].status)))
    else if writer.Raises? then (m, Err(AuditFailed))
    else (m.(actions := m.actions[action.id := action], audit := Audited(m.audit, event, writer)), Ok(action))
  }

  class InMemoryActionRepository {
    var actions: map<ActionId, Action>
    var idempotency: map<Key, ActionId>
    var audit: seq<AuditEvent>

    function View(): Memory
      reads this
    {
      Memory(actions, idempotency, audit)
    }

    constructor ()
      ensures View() == Memory(map[], map[], [])
    {
      actions, idempotency, audit := map[], map[], [];
    }

    method Write(event: AuditEvent, writer: Writer) returns (ok: bool)
      modifies this`audit
      ensures ok <==> !writer.Raises?
      ensures audit == Audited(old(audit), event, writer)
    {
      if writer.Writes? {
        audit := audit + [event];
      }
      return !writer.Raises?;
    }

    // Insert, then take the insertion back when the audit writer raises.
    method CreateProposal(action: Action, event: AuditEvent, writer: Writer)
      returns (r: Result<(Action, bool), MemoryError>)
      modifies this
      ensures (View(), r) == CreateIn(old(View()), action, event, writer)
    {
      var key := KeyOf(action);
      if key in idempotency {
        if idempotency[key] !in actions {
          return Err(Missing);
        }
        return Ok((actions[idempotency[key]], false));
      }
      actions := actions[action.id := action];
      idempotency := idempotency[key := action.id];
      var written := Write(event, writer);
      if !written {
        actions := actions - {action.id};
        idempotency := idempotency - {key};
        assert actions == old(actions) - {action.id} && idempotency == old(idempotency);
        return Err(AuditFailed);
      }
      return Ok((action, true));
    }

    method Get(id: ActionId) returns (r: Result<Action, MemoryError>)
      ensures r == if id in actions then Ok(actions[id]) else Err(NotFound)
    {
      if id !in actions {
        return Err(NotFound);
      }
      return Ok(actions[id]);
    }

    method SaveTransition(action: Action, event: AuditEvent, expected: Status, writer: Writer)
      returns (r: Result<Action, MemoryError>)
      modifies this
      ensures (View(), r) == SaveIn(old(View()), action, event, expected, writer)
    {
      if action.id !in actions {
        return Err(NotFound);
      }
      var current := actions[action.id];
      if current.status != expected {
        return Err(Conflict(current.status));
      }
      actions := actions[action.id := action];
      var written := Write(event, writer);
      if !written {
        actions := actions[action.id := current];
        assert actions == old(actions);
        return Err(AuditFailed);
      }
      return Ok(action);
    }
  }

  // ---------------------------------------------------------------- rollback

  // A failed creation restores the maps exactly when the new id was free: the rollback removes whatever is
  // stored under it.
  lemma RollbackRestoresExactlyWhen(m: Memory, action: Action, event: AuditEvent)
    requires KeyOf(action) !in m.idempotency
    ensures CreateIn(m, action, event, Raises).1 == Err(AuditFailed)
    ensures CreateIn(m, action, event, Raises).0 == m <==> action.id !in m.actions
  {
    if action.id !in m.actions {
      assert m.actions - {action.id} == m.actions;
    } else {
      assert action.id !in CreateIn(m, action, event, Raises).0.actions;
    }
  }

  // ---------------------------------------------------------------- consistency of the two maps

  predicate Indexed(m: Memory, i: ActionId) {
    i in m.actions && m.actions[i].id == i && KeyOf(m.actions[i]) in m.idempotency
      && m.idempotency[KeyOf(m.actions[i])] == i
  }

  predicate Resolved(m: Memory, k: Key) {
    k in m.idempotency && m.idempotency[k] in m.actions && KeyOf(m.actions[m.idempotency[k]]) == k
  }

  ghost predicate Consistent(m: Memory) {
    var indexed := forall i {:trigger Indexed(m, i)} | i in m.actions :: Indexed(m, i);
    var resolved := indexed && forall k {:trigger Resolved(m, k)} | k in m.idempotency :: Resolved(m, k);
    resolved
  }

  // Creating keeps the maps consistent exactly when the key is known or the id is free; an id taken under
  // another key is overwritten on success and lost on failure.
  lemma CreateKeepsConsistentExactlyWhen(m: Memory, action: Action, event: AuditEvent, writer: Writer)
    requires Consistent(m)
    ensures Consistent(CreateIn(m, action, event, writer).0)
            <==> KeyOf(action) in m.idempotency || action.id !in m.actions
  {
    var after := CreateIn(m, action, event, writer).0;
    if KeyOf(action) !in m.idempotency {
      if action.id in m.actions {
        assert Indexed(m, action.id);
        assert !Resolved(after, KeyOf(m.actions[action.id]));
      } else {
        FreshCreateKeepsConsistent(m, action, event, writer);
      }
    }
  }

  lemma FreshCreateKeepsConsistent(m: Memory, action: Action, event: AuditEvent, writer: Writer)
    requires Consistent(m) && KeyOf(action) !in m.idempotency && action.id !in m.actions
    ensures Consistent(CreateIn(m, action, event, writer).0)
  {
    var after := CreateIn(m, action, event, writer).0;
    forall i | i in after.actions ensures Indexed(after, i) {
      assert i == action.id || Indexed(m, i);
    }
    forall k | k in after.idempotency ensures Resolved(after, k) {
      assert k == KeyOf(action) || Resolved(m, k);
    }
  }

  // ---------------------------------------------------------------- against the SQL repository

  // Both repositories hold the same actions and the same log.
  ghost predicate Matches(m: Memory, db: Database) {
    m.actions == db.actions && m.audit == db.audit
  }

  // Every message was enqueued with its action.
  predicate MessagesBelong(db: Database) {
    forall k | k in db.messages :: db.messages[k].aggregateId in db.actions
  }

  lemma FindsSameAction(m: Memory, db: Database, tenant: Tenant, key: Uuid)
    requires Consistent(m) && m.actions == db.actions
    ensures Key(tenant, key) in m.idempotency ==> Resolved(m, Key(tenant, key))
    ensures FindByKey(db, tenant, key)
            == if Key(tenant, key) in m.idempotency then Some(m.actions[m.idempotency[Key(tenant, key)]]) else None
  {
    if Key(tenant, key) in m.idempotency {
      assert Resolved(m, Key(tenant, key));
    }
    forall i | i in db.actions && db.actions[i].tenant == tenant && db.actions[i].key == key
      ensures Key(tenant, key) in m.idempotency && m.idempotency[Key(tenant, key)] == i
    {
      assert Indexed(m, i);
    }
  }

  // For new actions, as `propose` builds them, both repositories give the same answer and stay matched exactly
  // when the key is known or the id is free; otherwise SQL refuses the commit where memory overwrites.
  lemma MemoryAgreesExactlyWhen(m: Memory, db: Database, action: Action, mid: Uuid, now: Time)
    requires Consistent(m) && Matches(m, db) && MessagesBelong(db)
    requires mid !in db.messages && action.receipt.None?
    ensures var (after, answer) := CreateIn(m, action, ProposedEvent(action), Writes);
            var (answer', after') := Create(db, action, mid, now, NoRival);
            (answer.Ok? && answer'.Ok? && answer.value == answer'.value && Matches(after, after'))
            <==> KeyOf(action) in m.idempotency || action.id !in m.actions
  {
    FindsSameAction(m, db, action.tenant, action.key);
    if KeyOf(action) !in m.idempotency && action.id !in m.actions {
      assert !Violates(db, action, mid);
    }
  }

  // The columns a transition does not write.
  predicate SameOtherColumns(a: Action, b: Action) {
    && a.id == b.id && a.caseId == b.caseId && a.reviewId == b.reviewId && a.tenant == b.tenant
    && a.arguments == b.arguments && a.proposer == b.proposer && a.key == b.key && a.createdAt == b.createdAt
    && a.reference == b.reference
  }

  // A transition is refused alike; an accepted one stays matched exactly when the saved action agrees with the row on
  // every column that SQL leaves alone, its reference among them: memory stores the saved action whole.
  lemma SavingAgreesExactlyWhen(m: Memory, db: Database, action: Action, event: AuditEvent, expected: Status)
    requires Matches(m, db)
    ensures var (after, answer) := SaveIn(m, action, event, expected, Writes);
            match SaveTransition(db, action, event, expected)
            case Err(ActionNotFound) => action.id !in m.actions && answer == Err(NotFound) && after == m
            case Err(TransitionConflict(status)) =>
              action.id in m.actions && m.actions[action.id].status == status != expected
              && answer == Err(Conflict(status)) && after == m
            case Ok(db') =>
              && action.id in m.actions && m.actions[action.id].status == expected && answer == Ok(action)
              && after.audit == db'.audit == m.audit + [event] && after.idempotency == m.idempotency
              && (Matches(after, db') <==> SameOtherColumns(m.actions[action.id], action))
  {
    var (after, answer) := SaveIn(m, action, event, expected, Writes);
    if answer.Ok? {
      var row := m.actions[action.id];
      assert after.actions[action.id] == action;
      if SameOtherColumns(row, action) {
        assert WriteTransition(row, action) == action;
      } else {
        assert WriteTransition(row, action) != action;
      }
    }
  }

  // ---------------------------------------------------------------- any sequence of calls

  datatype Call =
    | Creating(action: Action, event: AuditEvent, writer: Writer)
    | Saving(action: Action, event: AuditEvent, expected: Status, writer: Writer)

  function Perform(m: Memory, call: Call): (after: Memory) {
    match call
    case Creating(action, event, writer) => CreateIn(m, action, event, writer).0
    case Saving(action, event, expected, writer) => SaveIn(m, action, event, expected, writer).0
  }

  function Failure(m: Memory, call: Call): Option<MemoryError> {
    match call
    case Creating(action, event, writer) =>
      (match CreateIn(m, action, event, writer).1 case Ok(_) => None case Err(e) => Some(e))
    case Saving(action, event, expected, writer) =>
      (match SaveIn(m, action, event, expected, writer).1 case Ok(_) => None case Err(e) => Some(e))
  }

  function PerformAll(m: Memory, calls: seq<Call>): Memory {
    if calls == [] then m else Perform(PerformAll(m, calls[..|calls| - 1]), calls[|calls| - 1])
  }

  predicate OwnTenants(m: Memory) {
    forall i | i in m.actions :: OwnTenant(m.actions[i])
  }

  lemma PerformKeeps(m: Memory, call: Call)
    requires Consistent(m) && OwnTenants(m) && OwnTenant(call.action)
    ensures Consistent(Perform(m, call)) && OwnTenants(Perform(m, call))
    ensures Failure(m, call).Some? ==> Perform(m, call) == m && Failure(m, call).value != Missing
  {
    var after := Perform(m, call);
    if call.Creating? {
      if call.action.id in m.actions {
        assert Indexed(m, call.action.id);
      } else if KeyOf(call.action) !in m.idempotency {
        RollbackRestoresExactlyWhen(m, call.action, call.event);
      }
      if KeyOf(call.action) in m.idempotency {
        assert Resolved(m, KeyOf(call.action));
      }
      CreateKeepsConsistentExactlyWhen(m, call.action, call.event, call.writer);
    } else if call.action.id in m.actions {
      assert Indexed(m, call.action.id);
      forall i | i in after.actions ensures Indexed(after, i) {
        assert Indexed(m, i);
      }
      forall k | k in after.idempotency ensures Resolved(after, k) {
        assert Resolved(m, k);
      }
    }
  }

  // As long as proposers act for their own tenant, no sequence of calls and audit failures makes the maps
  // disagree, and every call that raises leaves everything as it was.
  lemma {:induction false} CallsAreAllOrNothing(calls: seq<Call>, next: Call)
    requires forall i | 0 <= i < |calls| :: OwnTenant(calls[i].action)
    requires OwnTenant(next.action)
    ensures var m := PerformAll(Memory(map[], map[], []), calls);
            && Consistent(m) && OwnTenants(m)
            && (Failure(m, next).Some? ==> Perform(m, next) == m && Failure(m, next).value != Missing)
    decreases |calls|
  {
    if calls != [] {
      CallsAreAllOrNothing(calls[..|calls| - 1], calls[|calls| - 1]);
      PerformKeeps(PerformAll(Memory(map[], map[], []), calls[..|calls| - 1]), calls[|calls| - 1]);
    }
    PerformKeeps(PerformAll(Memory(map[], map[], []), calls), next);
  }

  // ---------------------------------------------------------------- two calls that lose an action

  const NOTHING := Memory(map[], map[], [])

  // A new action on a case of `tenant`, proposed by somebody of the north.
  function Proposing(tenant: Tenant): Action {
    var arguments := Arguments(1, 1, Approve, "", []);
    Action(ActionId("north", 7), 1, 1, tenant, arguments, PendingApproval, "ann", None, "", 7, None, None, 0, None,
        None)
  }

  // From empty maps: an administrator of the north proposes for the south, then the north proposes for itself. When
  // the second audit write raises, the rollback removes the first action, whose retry is then an internal error;
  // when it succeeds, the first action is overwritten.
  lemma AdministratorsActionIsLost()
    ensures var first, second := Proposing("south"), Proposing("north");
            var m := CreateIn(NOTHING, first, ProposedEvent(first), Writes).0;
            var (raised, error) := CreateIn(m, second, ProposedEvent(second), Raises);
            var (overwritten, created) := CreateIn(m, second, ProposedEvent(second), Writes);
            && m.actions == map[first.id := first]
            && error == Err(AuditFailed) && raised.actions == map[]
            && CreateIn(raised, first, ProposedEvent(first), Writes).1 == Err(Missing)
            && created == Ok((second, true)) && overwritten.actions == map[first.id := second]
            && !Consistent(raised) && !Consistent(overwritten)
  {
    var first, second := Proposing("south"), Proposing("north");
    var m := CreateIn(NOTHING, first, ProposedEvent(first), Writes).0;
    assert Key("south", 7) != Key("north", 7);
    CreateKeepsConsistentExactlyWhen(NOTHING, first, ProposedEvent(first), Writes);
    CreateKeepsConsistentExactlyWhen(m, second, ProposedEvent(second), Raises);
    CreateKeepsConsistentExactlyWhen(m, second, ProposedEvent(second), Writes);
  }
}
