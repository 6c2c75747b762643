/**
 The governance service over the SQL repository and the supplier system (packages/governance/service.py).

 `propose`, `decide` and `execute` read, then act, then compare and set. What another request commits
 between the read and the write is a parameter, so every branch of the conflict handling can be taken.
 */
module Governance {
  import opened Model
  import opened Transactions
  import opened Protocol
  import opened Runs
  import opened Store

  // ---------------------------------------------------------------- what a request does

  // A transition another request commits between this one's read and its write.
  datatype Interleaved = NoWrite | Write(action: Action, event: AuditEvent, expected: Status)

  function AfterWrite(db: Database, other: Interleaved): Database {
    match other
    case NoWrite => db
    case Write(action, event, expected) =>
      (match SaveTransition(db, action, event, expected)
       case Ok(after) => after
       case Err(_) => db)
  }

  ghost function ProposalResult(db: Database, p: Proposal, mid: Uuid, now: Time, rival: Rival): (Answer, Database) {
    var request := BegunProposal(db, p, now);
    if request.ProposalReady? then
      var current := AfterRival(db, rival, now);
      if Violates(current, request.action, mid) then (ReconsideredProposal(current, request.action).answer, current)
      else (Resolve(request.action, request.action), InsertProposal(current, request.action, mid, now))
    else (request.answer, db)
  }

  function DecisionResult(db: Database, id: ActionId, principal: Principal, approve: bool, comment: string, now: Time,
                          other: Interleaved)
    : (Answer, Database)
  {
    var request := BegunDecision(db, id, principal, approve, comment, now);
    if request.DecisionReady? then
      var current := AfterWrite(db, other);
      match SaveTransition(current, request.decided, DecisionEvent(request.decided), PendingApproval)
      case Ok(after) => (Stored(request.decided), after)
      case Err(ActionNotFound) => (Failure(NotFound), current)
      case Err(TransitionConflict(_)) => (Failure(StateConflict), current)
    else (request.answer, db)
  }

  // The compare-and-set of an execution whose receipt is in hand.
  function CommittedExecution(db: Database, approved: Action, receipt: Receipt, actor: Subject): (Answer, Database) {
    var executed := Executing(approved, receipt);
    match SaveTransition(db, executed, ExecutionEvent(executed, actor), Status.Approved)
    case Ok(after) => (Receipted(executed.id, receipt), after)
    case Err(ActionNotFound) => (Failure(NotFound), db)
    case Err(TransitionConflict(_)) => (ReconsideredExecution(db, executed.id).answer, db)
  }

  function ExecutionResult(db: Database, receipts: map<Uuid, Receipt>, id: ActionId, principal: Principal, now: Time,
                           other: Interleaved)
    : (Answer, Database, map<Uuid, Receipt>)
  {
    var request := BegunExecution(db, id, principal);
    if request.SupplierCall? then
      var after := SupplierReceipts(receipts, request.approved, now);
      var (answer, db') := CommittedExecution(AfterWrite(db, other), request.approved, after[request.approved.key],
          request.actor);
      (answer, db', after)
    else (request.answer, db, receipts)
  }

  // ---------------------------------------------------------------- what a request may change

  // Whatever other requests commit meanwhile: a decision is stored by an approver of the tenant who is not
  // the proposer, on an action still pending, with one event; otherwise the tables are as the others left them.
  lemma DecisionIsIndependent(db: Database, id: ActionId, principal: Principal, approve: bool, comment: string,
                              now: Time, other: Interleaved)
    ensures var (answer, after) := DecisionResult(db, id, principal, approve, comment, now, other);
            var current := AfterWrite(db, other);
            if answer.Stored? then
              && principal.HasRole(Approver) && id in db.actions && db.actions[id].proposer != principal.subject
              && principal.MayAccess(db.actions[id].tenant)
              && (db.actions[id].id == id ==>
                    && id in current.actions && current.actions[id].status == PendingApproval
                    && after.actions == current.actions[id := after.actions[id]]
                    && after.actions[id].approver == Some(principal.subject)
                    && after.actions[id].reference == current.actions[id].reference
                    && after.actions[id].status == (if approve then Status.Approved else Status.Rejected)
                    && after.messages == current.messages && |after.audit| == |current.audit| + 1)
            else after == current || after == db
  {
  }

  // The supplier system is called by executors of the tenant only, on the arguments of an approved action.
  lemma SupplierNeedsApproval(db: Database, receipts: map<Uuid, Receipt>, id: ActionId, principal: Principal,
                              now: Time, other: Interleaved)
    ensures var after := ExecutionResult(db, receipts, id, principal, now, other).2;
            after != receipts ==>
              && principal.HasRole(Executor) && id in db.actions && db.actions[id].status == Status.Approved
              && principal.MayAccess(db.actions[id].tenant) && db.actions[id].key !in receipts
              && after == receipts[db.actions[id].key := NewReceipt(db.actions[id], now)]
  {
  }

  // Once `execute` answered with a receipt, asking again gives the same receipt and changes nothing.
  lemma ExecutionIsRepeatable(db: Database, receipts: map<Uuid, Receipt>, id: ActionId,
                              first: Principal, now: Time, other: Interleaved, second: Principal, later: Time,
                                another: Interleaved)
    requires id in db.actions ==> db.actions[id].id == id
    ensures var (answer, db', receipts') := ExecutionResult(db, receipts, id, first, now, other);
            answer.Receipted? ==>
              && answer.id == id && id in db'.actions && db'.actions[id].status == Status.Executed
              && db'.actions[id].receipt == Some(answer.receipt)
              && (second.HasRole(Executor) && second.MayAccess(db'.actions[id].tenant) ==>
                    ExecutionResult(db', receipts', id, second, later, another) == (answer, db', receipts'))
  {
  }

  // A receipt obtained by calling the supplier carries this action's id exactly when the supplier had none for the
  // key, or one of this action's: the supplier system knows the key only, not the tenant it belongs to.
  // A transition that another request commits in between may only make the call fail, or answer with what it stored.
  lemma CallGivesReceipt(db: Database, receipts: map<Uuid, Receipt>, id: ActionId, principal: Principal, now: Time,
                         other: Interleaved)
    requires BegunExecution(db, id, principal).SupplierCall? && db.actions[id].id == id
    ensures var answer := ExecutionResult(db, receipts, id, principal, now, other).0;
            var key, row := db.actions[id].key, AfterWrite(db, other).actions[id];
            if row.status == Status.Approved then
              && answer.Receipted? && answer.id == id
              && (answer.receipt.actionId == id <==> key !in receipts || receipts[key].actionId == id)
              && (answer.receipt.decision == db.actions[id].arguments.decision
                  <==> key !in receipts || receipts[key].decision == db.actions[id].arguments.decision)
            else answer == (if row.status == Status.Executed && row.receipt.Some? then Receipted(id, row.receipt.value)
                else Failure(StateConflict))
  {
  }

  // ---------------------------------------------------------------- uninterrupted requests are runs

  // `r` ran to its answer, and nobody else moved.
  ghost predicate Answers(s: State, r: nat, answer: Answer, db: Database, receipts: map<Uuid, Receipt>, t: State) {
    t == WithRequest(s.(db := db, receipts := receipts), r, Returned(answer))
  }

  lemma Rewritten(s: State, r: nat, a: Request, b: Request)
    ensures WithRequest(WithRequest(s, r, a), r, b) == WithRequest(s, r, b)
  {
    assert s.requests[r := a][r := b] == s.requests[r := b];
  }

  lemma ProposalIsRun(cfg: Config, s: State, r: nat, p: Proposal, mid: Uuid,
                      now: Time) returns (es: seq<Event>, t: State)
    requires r !in s.requests && mid !in s.db.messages
    ensures var (answer, db) := ProposalResult(s.db, p, mid, now, NoRival);
            Leads(cfg, s, es, t) && Answers(s, r, answer, db, s.receipts, t)
  {
    var begun := BegunProposal(s.db, p, now);
    OneStep(cfg, s, BeginProposal(r, p, now));
    es, t := [BeginProposal(r, p, now)], WithRequest(s, r, begun);
    if begun.ProposalReady? {
      Then(cfg, s, es, t, CommitProposal(r, mid, now));
      es, t := es + [CommitProposal(r, mid, now)], AfterCommitProposal(t, r, mid, now);
      if Violates(s.db, begun.action, mid) {
        Rewritten(s, r, begun, ProposalRefused(begun.action));
        Then(cfg, s, es, t, ReconsiderProposal(r));
        var answer := ReconsideredProposal(s.db, begun.action);
        es, t := es + [ReconsiderProposal(r)], WithRequest(t, r, answer);
        Rewritten(s, r, ProposalRefused(begun.action), answer);
      } else {
        Rewritten(s.(db := InsertProposal(s.db, begun.action, mid, now)), r, begun,
            Returned(Resolve(begun.action, begun.action)));
      }
    }
  }

  lemma DecisionIsRun(cfg: Config, s: State, r: nat, id: ActionId, principal: Principal, approve: bool,
                      comment: string, now: Time)
    returns (es: seq<Event>, t: State)
    requires r !in s.requests
    ensures var (answer, db) := DecisionResult(s.db, id, principal, approve, comment, now, NoWrite);
            Leads(cfg, s, es, t) && Answers(s, r, answer, db, s.receipts, t)
  {
    var begin := BeginDecision(r, id, principal, approve, comment, now);
    var begun := BegunDecision(s.db, id, principal, approve, comment, now);
    OneStep(cfg, s, begin);
    es, t := [begin], WithRequest(s, r, begun);
    if begun.DecisionReady? {
      Then(cfg, s, es, t, CommitDecision(r));
      es, t := es + [CommitDecision(r)], AfterCommitDecision(t, r);
      var (answer, db) := DecisionResult(s.db, id, principal, approve, comment, now, NoWrite);
      Rewritten(s.(db := db), r, begun, Returned(answer));
    }
  }

  lemma ExecutionIsRun(cfg: Config, s: State, r: nat, id: ActionId, principal: Principal, now: Time)
    returns (es: seq<Event>, t: State)
    requires r !in s.requests
    ensures var (answer, db, receipts) := ExecutionResult(s.db, s.receipts, id, principal, now, NoWrite);
            Leads(cfg, s, es, t) && Answers(s, r, answer, db, receipts, t)
  {
    var begin := BeginExecution(r, id, principal);
    var begun := BegunExecution(s.db, id, principal);
    OneStep(cfg, s, begin);
    es, t := [begin], WithRequest(s, r, begun);
    if begun.SupplierCall? {
      Then(cfg, s, es, t, CallSupplier(r, now));
      var receipts := SupplierReceipts(s.receipts, begun.approved, now);
      var paid := s.(receipts := receipts);
      var ready := ExecutionReady(begun.approved, receipts[begun.approved.key], begun.actor);
      Rewritten(paid, r, begun, ready);
      es, t := es + [CallSupplier(r, now)], WithRequest(paid, r, ready);
      var fs, u := CommitExecutionIsRun(cfg, paid, r, ready);
      LeadsOn(cfg, s, es, t, fs, u);
      es, t := es + fs, u;
    }
  }

  lemma CommitExecutionIsRun(cfg: Config, s: State, r: nat, ready: Request) returns (es: seq<Event>, t: State)
    requires ready.ExecutionReady?
    ensures var (answer, db) := CommittedExecution(s.db, ready.approved, ready.receipt, ready.actor);
            Leads(cfg, WithRequest(s, r, ready), es, t) && Answers(s, r, answer, db, s.receipts, t)
  {
    var start := WithRequest(s, r, ready);
    OneStep(cfg, start, CommitExecution(r));
    es, t := [CommitExecution(r)], AfterCommitExecution(start, r);
    var (answer, db) := CommittedExecution(s.db, ready.approved, ready.receipt, ready.actor);
    if t.requests[r].ExecutionRefused? {
      Rewritten(s, r, ready, t.requests[r]);
      Then(cfg, start, es, t, ReconsiderExecution(r));
      es, t := es + [ReconsiderExecution(r)], WithRequest(t, r, ReconsideredExecution(s.db, ready.approved.id));
      Rewritten(s, r, ExecutionRefused(ready.approved.id), Returned(answer));
    } else {
      Rewritten(s.(db := db), r, ready, Returned(answer));
    }
  }

  // ---------------------------------------------------------------- the objects

  class InMemorySupplierSystem {
    var receipts: map<Uuid, Receipt>

    constructor ()
      ensures receipts == map[]
    {
      receipts := map[];
    }

    method SetOnboardingDecision(action: Action, now: Time) returns (receipt: Receipt)
      modifies this
      ensures receipts == SupplierReceipts(old(receipts), action, now) && receipt == receipts[action.key]
    {
      if action.key in receipts {
        return receipts[action.key];
      }
      receipt := NewReceipt(action, now);
      receipts := receipts[action.key := receipt];
    }
  }

  class GovernanceService {
    const repository: SqlActionRepository
    const supplier: InMemorySupplierSystem

    constructor (repository: SqlActionRepository, supplier: InMemorySupplierSystem)
      ensures this.repository == repository && this.supplier == supplier
    {
      this.repository, this.supplier := repository, supplier;
    }

    method Propose(p: Proposal, mid: Uuid, now: Time, rival: Rival, ghost db: Database) returns (answer: Answer)
      requires repository.tables.Hold(db) && UniqueKeys(db.actions)
      modifies repository.tables
      ensures answer == ProposalResult(db, p, mid, now, rival).0
              && repository.tables.Hold(ProposalResult(db, p, mid, now, rival).1)
    {
      if !p.principal.HasRole(Analyst) || !p.principal.MayAccess(p.caseTenant) {
        return Failure(Denied);
      }
      if p.reviewCaseId != p.caseId {
        return Failure(WrongCase);
      }
      var action := ProposedAction(p, now);
      var stored := repository.CreateProposal(action, mid, now, rival, db);
      if stored.Err? {
        return Failure(IntegrityFailure);
      }
      return Resolve(stored.value.0, action);
    }

    // What may happen between a read and the write that relies on it.
    method LetOtherCommit(other: Interleaved, ghost db: Database)
      requires repository.tables.Hold(db)
      modifies repository.tables`audit, repository.tables.ActionRows()
      ensures repository.tables.Hold(AfterWrite(db, other)) && repository.tables.Rows() == old(repository.tables.Rows())
    {
      match other
      case NoWrite =>
      case Write(action, event, expected) => var _ := repository.SaveTransition(action, event, expected, db);
    }

    method Decide(id: ActionId, principal: Principal, approve: bool, comment: string, now: Time, other: Interleaved,
                  ghost db: Database)
      returns (answer: Answer)
      requires repository.tables.Hold(db)
      modifies repository.tables`audit, repository.tables.ActionRows()
      ensures var (result, after) := DecisionResult(db, id, principal, approve, comment, now, other);
              answer == result && repository.tables.Hold(after)
    {
      if !principal.HasRole(Approver) {
        return Failure(Denied);
      }
      var found := repository.Get(id);
      if found.Err? {
        return Failure(NotFound);
      }
      var action := found.value;
      if !principal.MayAccess(action.tenant) || action.proposer == principal.subject {
        return Failure(Denied);
      }
      if action.status != PendingApproval {
        return Failure(StateConflict);
      }
      LetOtherCommit(other, db);
      var decided := Decided(action, approve, principal.subject, comment, now);
      var saved := repository.SaveTransition(decided, DecisionEvent(decided), PendingApproval, AfterWrite(db, other));
      if saved.Err? {
        return Failure(if saved.error.ActionNotFound? then NotFound else StateConflict);
      }
      return Stored(decided);
    }

    method Execute(id: ActionId, principal: Principal, now: Time, other: Interleaved, ghost db: Database)
      returns (answer: Answer)
      requires repository.tables.Hold(db)
      modifies repository.tables`audit, repository.tables.ActionRows(), supplier
      ensures var (result, after, receipts) := ExecutionResult(db, old(supplier.receipts), id, principal, now, other);
              answer == result && repository.tables.Hold(after) && supplier.receipts == receipts
    {
      if !principal.HasRole(Executor) {
        return Failure(Denied);
      }
      var found := repository.Get(id);
      if found.Err? {
        return Failure(NotFound);
      }
      var action := found.value;
      if !principal.MayAccess(action.tenant) {
        return Failure(Denied);
      }
      if action.status == Status.Executed && action.receipt.Some? {
        return Receipted(id, action.receipt.value);
      }
      if action.status != Status.Approved {
        return Failure(StateConflict);
      }
      answer := Apply(action, principal.subject, now, other, db);
    }

    // Call the supplier system, then commit what it answered.
    method Apply(approved: Action, actor: Subject, now: Time, other: Interleaved,
                 ghost db: Database) returns (answer: Answer)
      requires repository.tables.Hold(db)
      modifies repository.tables`audit, repository.tables.ActionRows(), supplier
      ensures supplier.receipts == SupplierReceipts(old(supplier.receipts), approved, now)
      ensures var (result, after) :=
              CommittedExecution(AfterWrite(db, other), approved, supplier.receipts[approved.key], actor);
              answer == result && repository.tables.Hold(after)
    {
      var receipt := supplier.SetOnboardingDecision(approved, now);
      LetOtherCommit(other, db);
      answer := CommitExecuted(approved, receipt, actor, AfterWrite(db, other));
    }

    method CommitExecuted(approved: Action, receipt: Receipt, actor: Subject, ghost db: Database)
      returns (answer: Answer)
      requires repository.tables.Hold(db)
      modifies repository.tables`audit, repository.tables.ActionRows()
      ensures var (result, after) := CommittedExecution(db, approved, receipt, actor);
              answer == result && repository.tables.Hold(after)
    {
      var executed := Executing(approved, receipt);
      var saved := repository.SaveTransition(executed, ExecutionEvent(executed, actor), Status.Approved, db);
      if saved.Ok? {
        return Receipted(executed.id, receipt);
      }
      if saved.error.ActionNotFound? {
        return Failure(NotFound);
      }
      var current := repository.Get(executed.id);
      if current.Err? {
        return Failure(NotFound);
      }
      if current.value.status == Status.Executed && current.value.receipt.Some? {
        return Receipted(executed.id, current.value.receipt.value);
      }
      return Failure(StateConflict);
    }
  }
}
