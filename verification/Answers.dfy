/**
 What one uninterrupted request answers and stores in any reachable state, on the fields of the request, the rows
 and the receipts (packages/governance/service.py:100-257).
 */
module Answers {
  import opened Model
  import opened Transactions
  import opened Protocol
  import opened Invariant
  import opened Runs
  import opened Store
  import opened Governance
  import opened CrossTenant

  predicate Holds(principal: Principal, role: Role) {
    role in principal.roles || Admin in principal.roles
  }

  predicate Belongs(principal: Principal, tenant: Tenant) {
    principal.tenant == tenant || Admin in principal.roles
  }

  // The action of the case's tenant under that key, if there is one.
  ghost predicate IsUsed(db: Database, tenant: Tenant, key: Uuid, i: ActionId) {
    i in db.actions && db.actions[i].tenant == tenant && db.actions[i].key == key
  }

  lemma UsedIsFound(db: Database, tenant: Tenant, key: Uuid)
    requires UniqueKeys(db.actions)
    ensures forall i | IsUsed(db, tenant, key, i) :: FindByKey(db, tenant, key) == Some(db.actions[i])
    ensures FindByKey(db, tenant, key).Some? <==> exists i :: IsUsed(db, tenant, key, i)
  {
    forall i | IsUsed(db, tenant, key, i) ensures FindByKey(db, tenant, key) == Some(db.actions[i]) {
      OnlyMatch(db, tenant, key, i);
    }
    if FindByKey(db, tenant, key).Some? {
      var i :| i in db.actions && db.actions[i] == FindByKey(db, tenant, key).value;
      assert IsUsed(db, tenant, key, i);
    }
  }

  // The first proposal of a tenant under a key, whose id is free, is stored with its event and its message.
  lemma ProposeStores(cfg: Config, states: seq<State>, events: seq<Event>, n: nat, p: Proposal, mid: Uuid, now: Time)
    requires IsRun(cfg, states, events) && n < |states| && mid !in states[n].db.messages
    requires Holds(p.principal, Analyst) && Belongs(p.principal, p.caseTenant) && p.reviewCaseId == p.caseId
    requires forall i :: !IsUsed(states[n].db, p.caseTenant, p.key, i)
    requires ActionId(p.principal.tenant, p.key) !in states[n].db.actions
    ensures var db, id := states[n].db, ActionId(p.principal.tenant, p.key);
            var a := Action(id, p.caseId, p.reviewId, p.caseTenant,
                            Arguments(p.caseId, p.reviewId, p.decision, p.rationale, p.requiredActions),
                            PendingApproval, p.principal.subject, None, "", p.key, None, None, now, None, None);
            var m := Message(mid, id, ApprovalWorkflowStart, Payload(id, p.caseId, p.caseTenant), 0, now,
                             None, None, None, None, None, None, now);
            ProposalResult(db, p, mid, now, NoRival)
            == (Stored(a), Database(db.actions[id := a], db.messages[mid := m],
                                    db.audit + [AuditEvent(ActionProposed, id, p.caseId, p.principal.subject)]))
  {
    ReachableInv(cfg, states, events, n);
    RefusedExactlyWhen(states[n].db, ProposedAction(p, now), mid);
    UsedIsFound(states[n].db, p.caseTenant, p.key);
  }

  // Every other proposal changes nothing, and says why.
  lemma ProposeAnswers(cfg: Config, states: seq<State>, events: seq<Event>, n: nat, p: Proposal, mid: Uuid, now: Time)
    requires IsRun(cfg, states, events) && n < |states| && mid !in states[n].db.messages
    ensures var db := states[n].db;
            var (answer, after) := ProposalResult(db, p, mid, now, NoRival);
            if !Holds(p.principal, Analyst) || !Belongs(p.principal, p.caseTenant) then
              (answer, after) == (Failure(Denied), db)
            else if p.reviewCaseId != p.caseId then (answer, after) == (Failure(WrongCase), db)
            else
              && (forall i | IsUsed(db, p.caseTenant, p.key, i) ::
                    after == db && answer == if db.actions[i].caseId == p.caseId && db.actions[i].reviewId == p.reviewId
                                             then Stored(db.actions[i]) else Failure(IdempotencyConflict))
              && ((forall i :: !IsUsed(db, p.caseTenant, p.key, i))
                  && ActionId(p.principal.tenant, p.key) in db.actions ==>
                    (answer, after) == (Failure(IntegrityFailure), db))
  {
    ReachableInv(cfg, states, events, n);
    RefusedExactlyWhen(states[n].db, ProposedAction(p, now), mid);
    UsedIsFound(states[n].db, p.caseTenant, p.key);
  }

  lemma DecideAnswers(cfg: Config, states: seq<State>, events: seq<Event>, n: nat, id: ActionId, principal: Principal,
                      approve: bool, comment: string, now: Time)
    requires IsRun(cfg, states, events) && n < |states|
    ensures var db := states[n].db;
            DecisionResult(db, id, principal, approve, comment, now, NoWrite)
            == if !Holds(principal, Approver) then (Failure(Denied), db)
               else if id !in db.actions then (Failure(NotFound), db)
               else if !Belongs(principal, db.actions[id].tenant) then (Failure(Denied), db)
               else if db.actions[id].proposer == principal.subject then (Failure(Denied), db)
               else if db.actions[id].status != PendingApproval then (Failure(StateConflict), db)
               else
                 var decided := db.actions[id].(status := if approve then Status.Approved else Status.Rejected,
                                                approver := Some(principal.subject), comment := comment,
                                                decidedAt := Some(now));
                 var event := AuditEvent(if approve then ActionApproved else ActionRejected, id, decided.caseId,
                                         principal.subject);
                 (Stored(decided), Database(db.actions[id := decided], db.messages, db.audit + [event]))
  {
    ReachableInv(cfg, states, events, n);
  }

  lemma ExecuteAnswers(cfg: Config, states: seq<State>, events: seq<Event>, n: nat, id: ActionId, principal: Principal,
                       now: Time)
    requires IsRun(cfg, states, events) && n < |states|
    ensures var db, receipts := states[n].db, states[n].receipts;
            ExecutionResult(db, receipts, id, principal, now, NoWrite)
            == if !Holds(principal, Executor) then (Failure(Denied), db, receipts)
               else if id !in db.actions then (Failure(NotFound), db, receipts)
               else if !Belongs(principal, db.actions[id].tenant) then (Failure(Denied), db, receipts)
               else if db.actions[id].receipt.Some? then (Receipted(id, db.actions[id].receipt.value), db, receipts)
               else if db.actions[id].status != Status.Approved then (Failure(StateConflict), db, receipts)
               else
                 var a := db.actions[id];
                 var receipt := if a.key in receipts then receipts[a.key] else Receipt(id, a.arguments.decision, now);
                 var executed := a.(status := Status.Executed, receipt := Some(receipt),
                                    executedAt := Some(receipt.executedAt));
                 var event := AuditEvent(ActionExecuted, id, a.caseId, principal.subject);
                 (Receipted(id, receipt), Database(db.actions[id := executed], db.messages, db.audit + [event]),
                  receipts[a.key := receipt])
  {
    ReachableInv(cfg, states, events, n);
    var db, receipts := states[n].db, states[n].receipts;
    if id in db.actions {
      assert ActionOk(db.actions[id]);
      if db.actions[id].key in receipts {
        assert receipts[db.actions[id].key := receipts[db.actions[id].key]] == receipts;
      }
    }
  }

  // ---------------------------------------------------------------- with another request in between

  // A proposal that found no row of its key, while a rival was stored before its commit: it is stored beside the
  // rival, or changes nothing and is answered from the row of its key, or fails for its id.
  lemma ProposeRaces(cfg: Config, states: seq<State>, events: seq<Event>, n: nat, p: Proposal, mid: Uuid, now: Time,
                     rival: Rival)
    requires IsRun(cfg, states, events) && n < |states| && mid !in states[n].db.messages
    requires rival.Rival? ==> rival.mid != mid
    requires Holds(p.principal, Analyst) && Belongs(p.principal, p.caseTenant) && p.reviewCaseId == p.caseId
    requires forall i :: !IsUsed(states[n].db, p.caseTenant, p.key, i)
    ensures var current, id := AfterRival(states[n].db, rival, now), ActionId(p.principal.tenant, p.key);
            var (answer, after) := ProposalResult(states[n].db, p, mid, now, rival);
            var unused := forall i :: !IsUsed(current, p.caseTenant, p.key, i);
            if unused && id !in current.actions then
              && answer.Stored? && answer.action.proposer == p.principal.subject && answer.action.id == id
              && after.actions == current.actions[id := answer.action]
              && after.messages.Keys == current.messages.Keys + {mid}
              && after.audit == current.audit + [AuditEvent(ActionProposed, id, p.caseId, p.principal.subject)]
            else
              && after == current && (unused ==> answer == Failure(IntegrityFailure))
              && forall i | IsUsed(current, p.caseTenant, p.key, i) ::
                   answer == if current.actions[i].caseId == p.caseId && current.actions[i].reviewId == p.reviewId
                             then Stored(current.actions[i]) else Failure(IdempotencyConflict)
  {
    ReachableInv(cfg, states, events, n);
    var db := states[n].db;
    if rival.Rival? && !Violates(db, rival.action, rival.mid) {
      InsertUnique(db, rival.action, rival.mid, now);
    }
    RefusedAfterRivalExactlyWhen(db, rival, ProposedAction(p, now), mid, now);
    UsedIsFound(db, p.caseTenant, p.key);
    UsedIsFound(AfterRival(db, rival, now), p.caseTenant, p.key);
  }

  // A decision that read a pending action, while another transition was stored before its compare-and-set.
  lemma DecideRaces(cfg: Config, states: seq<State>, events: seq<Event>, n: nat, id: ActionId, principal: Principal,
                    approve: bool, comment: string, now: Time, other: Interleaved)
    requires IsRun(cfg, states, events) && n < |states| && id in states[n].db.actions
    requires var a := states[n].db.actions[id];
             && Holds(principal, Approver) && Belongs(principal, a.tenant) && a.proposer != principal.subject
             && a.status == PendingApproval
    ensures var read, current := states[n].db.actions[id], AfterWrite(states[n].db, other);
            var (answer, after) := DecisionResult(states[n].db, id, principal, approve, comment, now, other);
            var status := if approve then Status.Approved else Status.Rejected;
            id in current.actions
            && if current.actions[id].status != PendingApproval then
                 (answer, after) == (Failure(StateConflict), current)
               else
                 var row := current.actions[id];
                 var event := AuditEvent(if approve then ActionApproved else ActionRejected, id, read.caseId,
                                         principal.subject);
                 && answer == Stored(read.(status := status, approver := Some(principal.subject), comment := comment,
                                           decidedAt := Some(now)))
                 && after == Database(current.actions[id := row.(status := status, approver := Some(principal.subject),
                                                                 comment := comment, decidedAt := Some(now),
                                                                 receipt := None, executedAt := None)],
                                      current.messages, current.audit + [event])
  {
    ReachableInv(cfg, states, events, n);
    assert ActionOk(states[n].db.actions[id]);
  }

  // An execution that read an approved action, while another transition was stored before its compare-and-set.
  lemma ExecuteRaces(cfg: Config, states: seq<State>, events: seq<Event>, n: nat, id: ActionId, principal: Principal,
                     now: Time, other: Interleaved)
    requires IsRun(cfg, states, events) && n < |states| && id in states[n].db.actions
    requires Holds(principal, Executor) && Belongs(principal, states[n].db.actions[id].tenant)
    requires states[n].db.actions[id].status == Status.Approved
    ensures var read, current := states[n].db.actions[id], AfterWrite(states[n].db, other);
            var (answer, after, receipts) :=
              ExecutionResult(states[n].db, states[n].receipts, id, principal, now, other);
            var receipt := if read.key in states[n].receipts then states[n].receipts[read.key]
                           else Receipt(id, read.arguments.decision, now);
            && id in current.actions && receipts == states[n].receipts[read.key := receipt]
            && var row := current.actions[id];
               if row.status == Status.Approved then
                 && answer == Receipted(id, receipt)
                 && after.messages == current.messages
                 && after.audit == current.audit + [AuditEvent(ActionExecuted, id, read.caseId, principal.subject)]
                 && after.actions
                    == current.actions[id := row.(status := Status.Executed, receipt := Some(receipt),
                                                  executedAt := Some(receipt.executedAt), approver := read.approver,
                                                  comment := read.comment, decidedAt := read.decidedAt)]
               else
                 after == current && answer == if row.status == Status.Executed && row.receipt.Some?
                                               then Receipted(id, row.receipt.value) else Failure(StateConflict)
  {
    ReachableInv(cfg, states, events, n);
    var receipts, key := states[n].receipts, states[n].db.actions[id].key;
    if key in receipts {
      assert receipts[key := receipts[key]] == receipts;
    }
  }
}
