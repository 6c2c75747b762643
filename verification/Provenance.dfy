/**
 Where everything stored comes from, on the fields of the requests themselves: every action from a proposal,
 every decision from a decision request, every execution from an execution request, by principals who may.
 */
module Provenance {
  import opened Model
  import opened Transactions
  import opened Approvals
  import opened Protocol
  import opened Invariant
  import opened TableProofs
  import opened StepProofs
  import opened Runs
  import opened Theorems

  // ---------------------------------------------------------------- what a request stands for

  // The principal holds the role, or is an administrator, and belongs to the tenant, or is an administrator.
  predicate May(principal: Principal, role: Role, tenant: Tenant) {
    (role in principal.roles && principal.tenant == tenant) || Admin in principal.roles
  }

  predicate IsProposalOf(a: Action, p: Proposal, now: Time) {
    var subject := a.proposer == p.principal.subject && a.id == ActionId(p.principal.tenant, p.key)
      && a.createdAt == now;
    var business := (a.tenant, a.caseId, a.reviewId, a.key) == (p.caseTenant, p.caseId, p.reviewId, p.key);
    var arguments :=
      && a.arguments.caseId == p.caseId && a.arguments.reviewId == p.reviewId && a.arguments.decision == p.decision
      && a.arguments.rationale == p.rationale && a.arguments.requiredActions == p.requiredActions;
    subject && business && arguments && May(p.principal, Analyst, p.caseTenant) && p.reviewCaseId == p.caseId
  }

  // Some proposal before point `n` of the run asked for exactly this action.
  ghost predicate Proposed(events: seq<Event>, n: nat, a: Action)
    requires n <= |events|
  {
    exists k :: 0 <= k < n && events[k].BeginProposal? && IsProposalOf(a, events[k].proposal, events[k].now)
  }

  predicate IsDecisionOf(a: Action, e: Event)
    requires e.BeginDecision?
  {
    var columns := (a.id, a.approver, a.comment, a.decidedAt)
      == (e.id, Some(e.principal.subject), e.comment, Some(e.now));
    var answer := e.approve <==> a.status != Status.Rejected;
    columns && answer && e.principal.subject != a.proposer && May(e.principal, Approver, a.tenant)
  }

  // Some decision request decided it as it is decided.
  ghost predicate DecidedBy(events: seq<Event>, n: nat, a: Action)
    requires n <= |events|
  {
    exists k :: 0 <= k < n && events[k].BeginDecision? && IsDecisionOf(a, events[k])
  }

  // Some execution request by `actor` asked for its execution.
  ghost predicate ExecutedBy(events: seq<Event>, n: nat, id: ActionId, tenant: Tenant, actor: Subject)
    requires n <= |events|
  {
    exists k :: 0 <= k < n && events[k].BeginExecution? && events[k].id == id && events[k].principal.subject == actor
                && May(events[k].principal, Executor, tenant)
  }

  // The supplier was called at the time the receipt says.
  ghost predicate SuppliedAt(events: seq<Event>, n: nat, receipt: Receipt)
    requires n <= |events|
  {
    exists k :: 0 <= k < n && events[k].CallSupplier? && events[k].now == receipt.executedAt
  }

  // ---------------------------------------------------------------- the invariant of sources

  ghost predicate ActionFrom(events: seq<Event>, n: nat, a: Action)
    requires n <= |events|
  {
    Proposed(events, n, a) && (a.status != PendingApproval ==> DecidedBy(events, n, a))
  }

  ghost predicate RequestFrom(events: seq<Event>, n: nat, request: Request)
    requires n <= |events|
  {
    match request
    case ProposalReady(a) => Proposed(events, n, a) && a.comment == ""
    case ProposalRefused(a) => Proposed(events, n, a)
    case DecisionReady(d) => DecidedBy(events, n, d)
    case SupplierCall(a, actor) => ExecutedBy(events, n, a.id, a.tenant, actor)
    case ExecutionReady(a, _, actor) => ExecutedBy(events, n, a.id, a.tenant, actor)
    case _ => true
  }

  ghost predicate EventFrom(events: seq<Event>, n: nat, actions: map<ActionId, Action>, e: AuditEvent)
    requires n <= |events|
  {
    e.kind == ActionExecuted ==>
      e.actionId in actions && ExecutedBy(events, n, e.actionId, actions[e.actionId].tenant, e.actor)
  }

  ghost predicate Sourced(events: seq<Event>, n: nat, s: State)
    requires n <= |events|
  {
    var sourced :=
      && (forall i {:trigger ActionFrom(events, n, s.db.actions[i])} | i in s.db.actions ::
            ActionFrom(events, n, s.db.actions[i]))
      && (forall r {:trigger RequestFrom(events, n, s.requests[r])} | r in s.requests ::
            RequestFrom(events, n, s.requests[r]))
      && (forall j {:trigger EventFrom(events, n, s.db.actions, s.db.audit[j])} | 0 <= j < |s.db.audit| ::
            EventFrom(events, n, s.db.actions, s.db.audit[j]))
      && (forall k {:trigger SuppliedAt(events, n, s.receipts[k])} | k in s.receipts ::
            SuppliedAt(events, n, s.receipts[k]));
    sourced
  }

  // ---------------------------------------------------------------- sources last

  lemma ProposedLasts(events: seq<Event>, n: nat, a: Action, b: Action)
    requires n < |events| && Proposed(events, n, a) && SameProposal(a, b)
    ensures Proposed(events, n + 1, b)
  {
    var k :| 0 <= k < n && events[k].BeginProposal? && IsProposalOf(a, events[k].proposal, events[k].now);
    assert IsProposalOf(b, events[k].proposal, events[k].now);
  }

  lemma DecidedLasts(events: seq<Event>, n: nat, a: Action, b: Action)
    requires n < |events| && DecidedBy(events, n, a)
    requires (a.id, a.tenant, a.proposer, a.approver, a.comment, a.decidedAt)
             == (b.id, b.tenant, b.proposer, b.approver, b.comment, b.decidedAt)
    requires a.status == Status.Rejected <==> b.status == Status.Rejected
    ensures DecidedBy(events, n + 1, b)
  {
    var k :| 0 <= k < n && events[k].BeginDecision? && IsDecisionOf(a, events[k]);
    assert IsDecisionOf(b, events[k]);
  }

  lemma ExecutedLasts(events: seq<Event>, n: nat, id: ActionId, tenant: Tenant, actor: Subject)
    requires n < |events| && ExecutedBy(events, n, id, tenant, actor)
    ensures ExecutedBy(events, n + 1, id, tenant, actor)
  {
  }

  lemma RequestLasts(events: seq<Event>, n: nat, request: Request)
    requires n < |events| && RequestFrom(events, n, request)
    ensures RequestFrom(events, n + 1, request)
  {
    match request
    case ProposalReady(a) => ProposedLasts(events, n, a, a);
    case ProposalRefused(a) => ProposedLasts(events, n, a, a);
    case DecisionReady(d) => DecidedLasts(events, n, d, d);
    case _ =>
  }

  lemma ActionLasts(events: seq<Event>, n: nat, a: Action, b: Action)
    requires n < |events| && ActionFrom(events, n, a) && Past(a, b)
    requires a.status == PendingApproval ==> b.status == PendingApproval
    ensures ActionFrom(events, n + 1, b)
  {
    ProposedLasts(events, n, a, b);
    if a.status != PendingApproval {
      DecidedLasts(events, n, a, b);
    }
  }

  // ---------------------------------------------------------------- one step

  lemma BegunProposalFrom(events: seq<Event>, n: nat, db: Database)
    requires n < |events| && events[n].BeginProposal?
    ensures RequestFrom(events, n + 1, BegunProposal(db, events[n].proposal, events[n].now))
  {
    var e := events[n];
    var request := BegunProposal(db, e.proposal, e.now);
    if request.ProposalReady? {
      assert IsProposalOf(request.action, e.proposal, e.now);
    }
  }

  lemma BegunDecisionFrom(events: seq<Event>, n: nat, db: Database)
    requires n < |events| && events[n].BeginDecision? && ActionsOk(db.actions)
    ensures var e := events[n];
            RequestFrom(events, n + 1, BegunDecision(db, e.id, e.principal, e.approve, e.comment, e.now))
  {
    var e := events[n];
    var request := BegunDecision(db, e.id, e.principal, e.approve, e.comment, e.now);
    if request.DecisionReady? {
      assert IsDecisionOf(request.decided, e);
    }
  }

  lemma BegunExecutionFrom(events: seq<Event>, n: nat, db: Database)
    requires n < |events| && events[n].BeginExecution? && ActionsOk(db.actions)
    ensures RequestFrom(events, n + 1, BegunExecution(db, events[n].id, events[n].principal))
  {
    var e := events[n];
    var request := BegunExecution(db, e.id, e.principal);
    if request.SupplierCall? {
      assert e.id == request.approved.id && May(e.principal, Executor, request.approved.tenant);
    }
  }

  // What its own step makes of a request.
  lemma OwnRequestFrom(cfg: Config, events: seq<Event>, n: nat, s: State)
    requires n < |events| && OfRequest(events[n]) && Enabled(cfg, s, events[n]) && Sourced(events, n, s)
    requires ActionsOk(s.db.actions)
    ensures var t, r := Next(cfg, s, events[n]), events[n].r;
            r in t.requests ==> RequestFrom(events, n + 1, t.requests[r])
  {
    var e := events[n];
    if e.BeginProposal? {
      BegunProposalFrom(events, n, s.db);
    } else if e.BeginDecision? {
      BegunDecisionFrom(events, n, s.db);
    } else if e.BeginExecution? {
      BegunExecutionFrom(events, n, s.db);
    } else if !e.CrashRequest? {
      ContinuedRequestFrom(cfg, events, n, s);
    }
  }

  predicate Continues(e: Event) {
    OfRequest(e) && !e.BeginProposal? && !e.BeginDecision? && !e.BeginExecution? && !e.CrashRequest?
  }

  // What a request has in hand after the next of its steps is what it had before, or an answer.
  lemma RequestContinues(cfg: Config, s: State, e: Event)
    requires Enabled(cfg, s, e) && Continues(e)
    ensures e.r in Next(cfg, s, e).requests
    ensures var before, after := s.requests[e.r], Next(cfg, s, e).requests[e.r];
            || after.Returned? || after.ExecutionRefused?
            || (before.ProposalReady? && after == ProposalRefused(before.action))
            || (before.SupplierCall? && after.ExecutionReady?
                && after.approved == before.approved && after.actor == before.actor)
  {
    match e
    case CommitProposal(r, mid, now) => assert r in AfterCommitProposal(s, r, mid, now).requests;
    case CommitDecision(r) => assert AfterCommitDecision(s, r).requests[r].Returned?;
    case CallSupplier(r, now) => assert AfterCallSupplier(s, r, now).requests[r].ExecutionReady?;
    case CommitExecution(r) => assert r in AfterCommitExecution(s, r).requests;
    case _ =>
  }

  lemma ContinuedRequestFrom(cfg: Config, events: seq<Event>, n: nat, s: State)
    requires n < |events| && Continues(events[n]) && Enabled(cfg, s, events[n]) && Sourced(events, n, s)
    ensures var t, r := Next(cfg, s, events[n]), events[n].r;
            r in t.requests && RequestFrom(events, n + 1, t.requests[r])
  {
    var r := events[n].r;
    assert RequestFrom(events, n, s.requests[r]);
    RequestLasts(events, n, s.requests[r]);
    RequestContinues(cfg, s, events[n]);
  }

  lemma RequestsFrom(cfg: Config, events: seq<Event>, n: nat, s: State, q: nat)
    requires n < |events| && Enabled(cfg, s, events[n]) && Sourced(events, n, s) && ActionsOk(s.db.actions)
    requires q in Next(cfg, s, events[n]).requests
    ensures RequestFrom(events, n + 1, Next(cfg, s, events[n]).requests[q])
  {
    var e := events[n];
    if OfRequest(e) && e.r == q {
      OwnRequestFrom(cfg, events, n, s);
    } else {
      OtherRequestStays(cfg, s, e, q);
      assert RequestFrom(events, n, s.requests[q]);
      RequestLasts(events, n, s.requests[q]);
    }
  }

  lemma OtherRequestStays(cfg: Config, s: State, e: Event, q: nat)
    requires Enabled(cfg, s, e) && q in Next(cfg, s, e).requests && !(OfRequest(e) && e.r == q)
    ensures q in s.requests && Next(cfg, s, e).requests[q] == s.requests[q]
  {
    if !OfRequest(e) {
      OthersMoveNoRequest(cfg, s, e);
    } else {
      OnlyOwnRequestIsNew(cfg, s, e);
      RequestMovesItself(cfg, s, e, q);
    }
  }

  lemma OnlyOwnRequestIsNew(cfg: Config, s: State, e: Event)
    requires Enabled(cfg, s, e) && OfRequest(e)
    ensures Next(cfg, s, e).requests.Keys <= s.requests.Keys + {e.r}
  {
    match e
    case CommitProposal(r, mid, now) =>
      assert AfterCommitProposal(s, r, mid, now).requests.Keys <= s.requests.Keys + {r};
    case CommitDecision(r) => assert AfterCommitDecision(s, r).requests.Keys <= s.requests.Keys + {r};
    case CommitExecution(r) => assert AfterCommitExecution(s, r).requests.Keys <= s.requests.Keys + {r};
    case _ =>
  }

  // A pending action is decided by a decision commit only.
  lemma StaysPending(cfg: Config, s: State, e: Event, i: ActionId)
    requires Enabled(cfg, s, e) && !e.CommitDecision? && i in s.db.actions && s.db.actions[i].status == PendingApproval
    ensures var t := Next(cfg, s, e);
            i in t.db.actions && t.db.actions[i].status == PendingApproval
  {
    if !Writes(e) {
      OthersLeaveTables(cfg, s, e);
    } else {
      PendingThroughWrite(cfg, s, e, i);
    }
  }

  lemma SaveSparesPending(db: Database, executed: Action, event: AuditEvent, i: ActionId)
    requires i in db.actions && db.actions[i].status == PendingApproval
    ensures var saved := SaveTransition(db, executed, event, Status.Approved);
            saved.Ok? ==> i in saved.value.actions && saved.value.actions[i].status == PendingApproval
  {
  }

  lemma PublicationSparesStatus(db: Database, mid: Uuid, w: WorkerId, reference: string, now: Time, i: ActionId)
    requires i in db.actions
    ensures var published := MarkPublished(db, mid, w, reference, now);
            published.Ok? ==> i in published.value.actions && published.value.actions[i].status == db.actions[i].status
  {
  }

  lemma PendingThroughWrite(cfg: Config, s: State, e: Event, i: ActionId)
    requires Enabled(cfg, s, e) && Writes(e) && !e.CommitDecision?
    requires i in s.db.actions && s.db.actions[i].status == PendingApproval
    ensures var t := Next(cfg, s, e);
            i in t.db.actions && t.db.actions[i].status == PendingApproval
  {
    match e
    case CommitProposal(r, mid, now) => assert AfterCommitProposal(s, r, mid, now).db.actions[i] == s.db.actions[i];
    case CommitExecution(r) =>
      var executed := Executing(s.requests[r].approved, s.requests[r].receipt);
      SaveSparesPending(s.db, executed, ExecutionEvent(executed, s.requests[r].actor), i);
    case ClaimBatch(w, now, _, claimed) => assert AfterClaim(s, w, now, claimed).db.actions == s.db.actions;
    case Acknowledge(w) =>
      var d := s.workers[w];
      PublicationSparesStatus(s.db, d.todo[0].id, w, d.phase.reference, d.now, i);
    case RecordFailed(w) => assert AfterRecordFailed(cfg, s, w).db.actions == s.db.actions;
  }

  // A decision that is stored carries the request's columns.
  lemma DecisionIsWritten(s: State, r: nat, i: ActionId)
    requires r in s.requests && s.requests[r].DecisionReady? && i in s.db.actions
    ensures var d, t := s.requests[r].decided, AfterCommitDecision(s, r);
            && i in t.db.actions
            && if i == d.id && s.db.actions[i].status == PendingApproval
               then t.db.actions[i] == WriteTransition(s.db.actions[i], d)
               else t.db.actions[i] == s.db.actions[i]
  {
  }

  lemma DecisionFrom(cfg: Config, events: seq<Event>, n: nat, s: State, i: ActionId)
    requires n < |events| && events[n].CommitDecision? && Enabled(cfg, s, events[n]) && Sourced(events, n, s)
    requires Inv(cfg, s) && i in s.db.actions
    ensures var t := AfterCommitDecision(s, events[n].r);
            i in t.db.actions && ActionFrom(events, n + 1, t.db.actions[i])
  {
    var r := events[n].r;
    var d, a := s.requests[r].decided, s.db.actions[i];
    DecisionIsWritten(s, r, i);
    assert ActionFrom(events, n, a) && RequestFrom(events, n, s.requests[r]);
    assert RequestOk(s.db.actions, s.receipts, s.requests[r]);
    if i == d.id && a.status == PendingApproval {
      ProposedLasts(events, n, a, WriteTransition(a, d));
      DecidedLasts(events, n, d, WriteTransition(a, d));
    } else {
      PastIsReflexive(a);
      ActionLasts(events, n, a, a);
    }
  }

  lemma PastIsReflexive(a: Action)
    ensures Past(a, a)
  {
  }

  lemma NewActionFrom(cfg: Config, events: seq<Event>, n: nat, s: State, i: ActionId)
    requires n < |events| && Enabled(cfg, s, events[n]) && Sourced(events, n, s)
    requires Inv(cfg, s)
    requires i in Next(cfg, s, events[n]).db.actions && i !in s.db.actions
    ensures ActionFrom(events, n + 1, Next(cfg, s, events[n]).db.actions[i])
    ensures events[n].CommitProposal? && Unstarted(Next(cfg, s, events[n]).db.actions[i])
  {
    var e := events[n];
    if !e.CommitProposal? {
      OthersAddNothing(cfg, s, e);
    }
    var r := e.r;
    assert RequestFrom(events, n, s.requests[r]) && RequestOk(s.db.actions, s.receipts, s.requests[r]);
    ProposedLasts(events, n, s.requests[r].action, s.requests[r].action);
  }

  lemma ActionsFrom(cfg: Config, events: seq<Event>, n: nat, s: State, i: ActionId)
    requires n < |events| && Sound(cfg) && Enabled(cfg, s, events[n]) && Sourced(events, n, s)
    requires Inv(cfg, s) && i in Next(cfg, s, events[n]).db.actions
    ensures ActionFrom(events, n + 1, Next(cfg, s, events[n]).db.actions[i])
  {
    var e, t := events[n], Next(cfg, s, events[n]);
    if i !in s.db.actions {
      NewActionFrom(cfg, events, n, s, i);
    } else if e.CommitDecision? {
      DecisionFrom(cfg, events, n, s, i);
    } else {
      StepEvolves(cfg, s, e);
      assert ActionFrom(events, n, s.db.actions[i]) && Past(s.db.actions[i], t.db.actions[i]);
      if s.db.actions[i].status == PendingApproval {
        StaysPending(cfg, s, e, i);
      }
      ActionLasts(events, n, s.db.actions[i], t.db.actions[i]);
    }
  }

  lemma EventLasts(events: seq<Event>, n: nat, before: map<ActionId, Action>, after: map<ActionId, Action>,
                   e: AuditEvent)
    requires n < |events| && EventFrom(events, n, before, e) && Grows(before, after)
    ensures EventFrom(events, n + 1, after, e)
  {
    if e.kind == ActionExecuted {
      assert Past(before[e.actionId], after[e.actionId]);
      ExecutedLasts(events, n, e.actionId, before[e.actionId].tenant, e.actor);
    }
  }

  // The log as it was, or one event longer, which tells of an execution only when `e` commits one.
  predicate LogMoves(s: State, e: Event, audit: seq<AuditEvent>)
    requires e.CommitExecution? ==> e.r in s.requests && s.requests[e.r].ExecutionReady?
  {
    || audit == s.db.audit
    || (|audit| == |s.db.audit| + 1 && audit[..|s.db.audit|] == s.db.audit
        && (audit[|s.db.audit|].kind == ActionExecuted ==>
              e.CommitExecution? && audit[|s.db.audit|].actionId == s.requests[e.r].approved.id
              && audit[|s.db.audit|].actor == s.requests[e.r].actor))
  }

  lemma CommitMovesLog(cfg: Config, s: State, e: Event)
    requires Enabled(cfg, s, e) && (e.CommitProposal? || e.CommitDecision? || e.CommitExecution?)
    ensures LogMoves(s, e, Next(cfg, s, e).db.audit)
  {
    match e
    case CommitProposal(r, mid, now) =>
      assert AfterCommitProposal(s, r, mid, now).db.audit[..|s.db.audit|] == s.db.audit;
    case CommitDecision(r) => assert AfterCommitDecision(s, r).db.audit[..|s.db.audit|] == s.db.audit;
    case CommitExecution(r) => assert AfterCommitExecution(s, r).db.audit[..|s.db.audit|] == s.db.audit;
  }

  lemma AuditMoves(cfg: Config, s: State, e: Event)
    requires Enabled(cfg, s, e)
    ensures LogMoves(s, e, Next(cfg, s, e).db.audit)
  {
    if !Writes(e) {
      OthersLeaveTables(cfg, s, e);
    } else {
      match e
      case ClaimBatch(w, now, _, claimed) => assert AfterClaim(s, w, now, claimed).db.audit == s.db.audit;
      case Acknowledge(w) => assert AfterAcknowledge(s, w).db.audit == s.db.audit;
      case RecordFailed(w) => assert AfterRecordFailed(cfg, s, w).db.audit == s.db.audit;
      case _ => CommitMovesLog(cfg, s, e);
    }
  }

  lemma NewEventFrom(cfg: Config, events: seq<Event>, n: nat, s: State, added: AuditEvent)
    requires n < |events| && Sound(cfg) && Enabled(cfg, s, events[n]) && Sourced(events, n, s)
    requires Inv(cfg, s) && events[n].CommitExecution?
    requires var request := s.requests[events[n].r];
             added.actionId == request.approved.id && added.actor == request.actor
    ensures EventFrom(events, n + 1, Next(cfg, s, events[n]).db.actions, added)
  {
    var t, request := Next(cfg, s, events[n]), s.requests[events[n].r];
    StepEvolves(cfg, s, events[n]);
    assert RequestFrom(events, n, request) && RequestOk(s.db.actions, s.receipts, request);
    assert Past(s.db.actions[request.approved.id], t.db.actions[request.approved.id]);
    ExecutedLasts(events, n, request.approved.id, request.approved.tenant, request.actor);
  }

  lemma OldEventFrom(cfg: Config, events: seq<Event>, n: nat, s: State, j: nat)
    requires n < |events| && Sound(cfg) && Enabled(cfg, s, events[n]) && Sourced(events, n, s)
    requires Inv(cfg, s) && j < |s.db.audit|
    ensures EventFrom(events, n + 1, Next(cfg, s, events[n]).db.actions, s.db.audit[j])
  {
    StepEvolves(cfg, s, events[n]);
    assert EventFrom(events, n, s.db.actions, s.db.audit[j]);
    EventLasts(events, n, s.db.actions, Next(cfg, s, events[n]).db.actions, s.db.audit[j]);
  }

  lemma LogAt(s: State, e: Event, audit: seq<AuditEvent>, j: nat)
    requires e.CommitExecution? ==> e.r in s.requests && s.requests[e.r].ExecutionReady?
    requires LogMoves(s, e, audit) && j < |audit|
    ensures j < |s.db.audit| ==> audit[j] == s.db.audit[j]
    ensures j >= |s.db.audit| && audit[j].kind == ActionExecuted ==>
              e.CommitExecution? && audit[j].actionId == s.requests[e.r].approved.id
              && audit[j].actor == s.requests[e.r].actor
  {
    if j < |s.db.audit| && audit != s.db.audit {
      assert audit[j] == audit[..|s.db.audit|][j];
    }
  }

  lemma EventsFrom(cfg: Config, events: seq<Event>, n: nat, s: State, j: nat)
    requires n < |events| && Sound(cfg) && Enabled(cfg, s, events[n]) && Sourced(events, n, s)
    requires Inv(cfg, s) && j < |Next(cfg, s, events[n]).db.audit|
    ensures var t := Next(cfg, s, events[n]);
            EventFrom(events, n + 1, t.db.actions, t.db.audit[j])
  {
    var t := Next(cfg, s, events[n]);
    AuditMoves(cfg, s, events[n]);
    LogAt(s, events[n], t.db.audit, j);
    if j < |s.db.audit| {
      OldEventFrom(cfg, events, n, s, j);
    } else if t.db.audit[j].kind == ActionExecuted {
      NewEventFrom(cfg, events, n, s, t.db.audit[j]);
    }
  }

  lemma ReceiptsFrom(cfg: Config, events: seq<Event>, n: nat, s: State, k: Uuid)
    requires n < |events| && Enabled(cfg, s, events[n]) && Sourced(events, n, s)
    requires k in Next(cfg, s, events[n]).receipts
    ensures SuppliedAt(events, n + 1, Next(cfg, s, events[n]).receipts[k])
  {
    var e := events[n];
    if e.CallSupplier? {
      assert AfterCallSupplier(s, e.r, e.now).receipts == SupplierReceipts(s.receipts, s.requests[e.r].approved, e.now);
    } else {
      OthersCallNobody(cfg, s, e);
    }
    if k in s.receipts {
      assert SuppliedAt(events, n, s.receipts[k]);
    }
  }

  lemma OthersCallNobody(cfg: Config, s: State, e: Event)
    requires Enabled(cfg, s, e) && !e.CallSupplier?
    ensures Next(cfg, s, e).receipts == s.receipts
  {
    if Writes(e) {
      WritesSpareServices(cfg, s, e);
    }
  }

  lemma StepSourced(cfg: Config, events: seq<Event>, n: nat, s: State)
    requires n < |events| && Sound(cfg) && Enabled(cfg, s, events[n]) && Sourced(events, n, s)
    requires Inv(cfg, s)
    ensures Sourced(events, n + 1, Next(cfg, s, events[n]))
  {
    var t := Next(cfg, s, events[n]);
    forall i | i in t.db.actions ensures ActionFrom(events, n + 1, t.db.actions[i]) {
      ActionsFrom(cfg, events, n, s, i);
    }
    forall r | r in t.requests ensures RequestFrom(events, n + 1, t.requests[r]) {
      RequestsFrom(cfg, events, n, s, r);
    }
    forall j | 0 <= j < |t.db.audit| ensures EventFrom(events, n + 1, t.db.actions, t.db.audit[j]) {
      EventsFrom(cfg, events, n, s, j);
    }
    forall k | k in t.receipts ensures SuppliedAt(events, n + 1, t.receipts[k]) {
      ReceiptsFrom(cfg, events, n, s, k);
    }
  }

  lemma {:induction false} RunSourced(cfg: Config, states: seq<State>, events: seq<Event>, n: nat)
    requires IsRun(cfg, states, events) && n < |states|
    ensures Sourced(events, n, states[n])
    decreases n
  {
    if n > 0 {
      RunSourced(cfg, states, events, n - 1);
      ReachableInv(cfg, states, events, n - 1);
      assert StepAt(cfg, states, events, n - 1);
      StepSourced(cfg, events, n - 1, states[n - 1]);
    }
  }

  // ---------------------------------------------------------------- what every run promises

  // Every stored action is, field by field, what an earlier permitted proposal asked for, under its principal's name.
  lemma ActionsComeFromProposals(cfg: Config, states: seq<State>, events: seq<Event>, n: nat, i: ActionId)
    returns (k: nat)
    requires IsRun(cfg, states, events) && n < |states| && i in states[n].db.actions
    ensures k < n && events[k].BeginProposal?
    ensures var a, p := states[n].db.actions[i], events[k].proposal;
            && a.proposer == p.principal.subject && a.id == ActionId(p.principal.tenant, p.key)
            && a.createdAt == events[k].now
            && a.tenant == p.caseTenant && a.caseId == p.caseId && a.reviewId == p.reviewId && a.key == p.key
            && a.arguments == Arguments(p.caseId, p.reviewId, p.decision, p.rationale, p.requiredActions)
            && ((Analyst in p.principal.roles && p.principal.tenant == p.caseTenant) || Admin in p.principal.roles)
            && p.reviewCaseId == p.caseId
  {
    RunSourced(cfg, states, events, n);
    assert ActionFrom(events, n, states[n].db.actions[i]);
    k :| 0 <= k < n && events[k].BeginProposal?
         && IsProposalOf(states[n].db.actions[i], events[k].proposal, events[k].now);
  }

  // It is stored by a proposal commit, pending, undecided and without receipt or reference, with one message that is
  // due at once.
  lemma ActionsStartPending(cfg: Config, states: seq<State>, events: seq<Event>, n: nat, i: ActionId)
    requires IsRun(cfg, states, events) && n < |events| && i !in states[n].db.actions && i in states[n + 1].db.actions
    ensures events[n].CommitProposal? && events[n].mid in states[n + 1].db.messages
    ensures var a, m := states[n + 1].db.actions[i], states[n + 1].db.messages[events[n].mid];
            && a.status == PendingApproval && a.approver == None && a.comment == ""
            && a.reference == None && a.receipt == None
            && a.decidedAt == None && a.executedAt == None
            && m.aggregateId == i && m.createdAt == events[n].now && m.availableAt == events[n].now
            && m.attemptCount == 0
            && m.lockedAt == None && m.lockedBy == None && m.publishedAt == None && m.deadLetteredAt == None
            && m.lastError == None
  {
    RunSourced(cfg, states, events, n);
    ReachableInv(cfg, states, events, n);
    assert StepAt(cfg, states, events, n);
    NewActionFrom(cfg, events, n, states[n], i);
    var r := events[n].r;
    assert RequestFrom(events, n, states[n].requests[r]);
  }

  // A decided action carries exactly what one decision request said, by a principal who may approve for the tenant and
  // is not the subject that proposed it.
  lemma DecisionsComeFromApprovers(cfg: Config, states: seq<State>, events: seq<Event>, n: nat, i: ActionId)
    returns (j: nat, k: nat)
    requires IsRun(cfg, states, events) && n < |states| && i in states[n].db.actions
    requires states[n].db.actions[i].status != PendingApproval
    ensures j < n && events[j].BeginProposal?
    ensures events[j].proposal.principal.subject == states[n].db.actions[i].proposer
    ensures k < n && events[k].BeginDecision? && events[k].id == i
    ensures var a, e := states[n].db.actions[i], events[k];
            && e.principal.subject != events[j].proposal.principal.subject
            && a.approver == Some(e.principal.subject) && a.comment == e.comment && a.decidedAt == Some(e.now)
            && (e.approve <==> a.status == Status.Approved || a.status == Status.Executed)
            && (!e.approve <==> a.status == Status.Rejected)
            && ((Approver in e.principal.roles && e.principal.tenant == a.tenant) || Admin in e.principal.roles)
  {
    RunSourced(cfg, states, events, n);
    ReachableInv(cfg, states, events, n);
    var a := states[n].db.actions[i];
    assert ActionFrom(events, n, a) && ActionOk(a) && a.id == i;
    j := ActionsComeFromProposals(cfg, states, events, n, i);
    k :| 0 <= k < n && events[k].BeginDecision? && IsDecisionOf(a, events[k]);
  }

  // The whole audit trail of an action, event by event and field by field; an execution is signed by the principal of
  // an execution request who may execute for the tenant.
  lemma AuditTrailIsSigned(cfg: Config, states: seq<State>, events: seq<Event>, n: nat, i: ActionId)
    requires IsRun(cfg, states, events) && n < |states| && i in states[n].db.actions
    ensures var a, trail := states[n].db.actions[i], Trace(states[n].db.audit, i);
            var first := AuditEvent(ActionProposed, i, a.caseId, a.proposer);
            match a.status
            case PendingApproval => trail == [first]
            case Approved =>
              a.approver.Some? && trail == [first, AuditEvent(ActionApproved, i, a.caseId, a.approver.value)]
            case Rejected =>
              a.approver.Some? && trail == [first, AuditEvent(ActionRejected, i, a.caseId, a.approver.value)]
            case Executed =>
              && a.approver.Some? && |trail| == 3
              && trail[..2] == [first, AuditEvent(ActionApproved, i, a.caseId, a.approver.value)]
              && trail[2] == AuditEvent(ActionExecuted, i, a.caseId, trail[2].actor)
              && ExecutedBy(events, n, i, a.tenant, trail[2].actor)
            case Failed => false
  {
    ReachableInv(cfg, states, events, n);
    var s := states[n];
    var a, trail := s.db.actions[i], Trace(s.db.audit, i);
    assert Tells(trail, a) && ActionOk(a) && a.id == i;
    if a.status == Status.Executed {
      RunSourced(cfg, states, events, n);
      TraceIsPart(s.db.audit, i, 2);
      var j :| 0 <= j < |s.db.audit| && s.db.audit[j] == trail[2];
      assert EventFrom(events, n, s.db.actions, s.db.audit[j]);
    }
  }

  // An executed action carries the receipt of a call the supplier got at the time the receipt and the row say.
  lemma ExecutionsCarryTheirTime(cfg: Config, states: seq<State>, events: seq<Event>, n: nat, i: ActionId)
    returns (k: nat)
    requires IsRun(cfg, states, events) && n < |states| && i in states[n].db.actions
    requires states[n].db.actions[i].status == Status.Executed
    ensures k < n && events[k].CallSupplier?
    ensures var a := states[n].db.actions[i];
            a.receipt.Some? && a.receipt.value.executedAt == events[k].now && a.executedAt == Some(events[k].now)
  {
    RunSourced(cfg, states, events, n);
    ReachableInv(cfg, states, events, n);
    var a := states[n].db.actions[i];
    assert ActionOk(a) && ReceiptKept(states[n].receipts, a) && SuppliedAt(events, n, states[n].receipts[a.key]);
    k :| 0 <= k < n && events[k].CallSupplier? && events[k].now == a.receipt.value.executedAt;
  }
}
