/**
 What every run of the system promises: outbox, supplier system, audit, polling workflow, proposals.
 */
module Theorems {
  import opened Model
  import opened Transactions
  import opened Approvals
  import opened Protocol
  import opened Invariant
  import opened TableProofs
  import opened StepProofs
  import opened Runs

  // ---------------------------------------------------------------- outbox and workflow

  // The action's one message; published exactly when the action has its reference.
  ghost predicate DeliveredBy(s: State, i: ActionId, m: Uuid)
    requires i in s.db.actions
  {
    && m in s.db.messages && s.db.messages[m].aggregateId == i
    && (forall n | n in s.db.messages && s.db.messages[n].aggregateId == i :: n == m)
    && (s.db.messages[m].publishedAt.Some? <==> s.db.actions[i].reference.Some?)
    && s.db.messages[m].deliveryResult == s.db.actions[i].reference
  }

  // No proposal loses its workflow start, none gets two, and a reference names an execution of its own action.
  lemma EveryActionHasOneMessage(cfg: Config, states: seq<State>, events: seq<Event>, n: nat,
                                 i: ActionId) returns (m: Uuid)
    requires IsRun(cfg, states, events) && n < |states| && i in states[n].db.actions
    ensures DeliveredBy(states[n], i, m)
    ensures states[n].db.actions[i].reference.Some? ==>
              var name := NameFor(cfg, i);
              && states[n].db.actions[i].reference.value == ServiceArn(cfg.machine, name)
              && name in states[n].executions && states[n].executions[name].input.actionId == i
  {
    var s := states[n];
    ReachableInv(cfg, states, events, n);
    assert HasMessage(s.db.messages, i);
    m :| m in s.db.messages && s.db.messages[m].aggregateId == i;
    assert LinkOk(s.db.actions, s.db.messages[m]);
    forall k | k in s.db.messages && s.db.messages[k].aggregateId == i ensures k == m {
      assert !MessageClash(s.db.messages, k, m);
    }
    if s.db.actions[i].reference.Some? {
      assert IsReference(cfg, s.executions, i, s.db.actions[i].reference.value);
    }
  }

  // An execution was started for one committed action, and no action has two.
  lemma ExecutionsBelongToActions(cfg: Config, states: seq<State>, events: seq<Event>, n: nat, name: string)
    requires IsRun(cfg, states, events) && n < |states| && name in states[n].executions
    ensures states[n].executions[name].input.actionId in states[n].db.actions
    ensures forall other | other in states[n].executions ::
              states[n].executions[other].input.actionId == states[n].executions[name].input.actionId ==> other == name
  {
    var s := states[n];
    ReachableInv(cfg, states, events, n);
    assert ExecutionOk(cfg, s.db.actions, name, s.executions[name]);
    forall other | other in s.executions && s.executions[other].input.actionId == s.executions[name].input.actionId
      ensures other == name
    {
      assert ExecutionOk(cfg, s.db.actions, other, s.executions[other]);
    }
  }

  // ---------------------------------------------------------------- the supplier system

  // The supplier applied an action at most once, and only after somebody other than its proposer approved it.
  lemma SupplierAppliesOnce(cfg: Config, states: seq<State>, events: seq<Event>, n: nat, k: Uuid, i: ActionId)
    requires IsRun(cfg, states, events) && n < |states|
    requires k in states[n].receipts && states[n].receipts[k].actionId == i
    ensures forall j | j in states[n].receipts && states[n].receipts[j].actionId == i :: j == k
    ensures i in states[n].db.actions
            && var a := states[n].db.actions[i];
               && Independent(a) && states[n].receipts[k].decision == a.arguments.decision
               && AuditEvent(ActionApproved, i, a.caseId, a.approver.value) in states[n].db.audit
               && (a.status == Status.Approved || a.status == Status.Executed)
  {
    var s := states[n];
    ReachableInv(cfg, states, events, n);
    assert ReceiptOk(s.db.actions, k, s.receipts[k]);
    forall j | j in s.receipts && s.receipts[j].actionId == i ensures j == k {
      assert ReceiptOk(s.db.actions, j, s.receipts[j]);
    }
    var a := s.db.actions[i];
    var trace := Trace(s.db.audit, i);
    assert Tells(trace, a) && a.id == i;
    TraceIsPart(s.db.audit, i, 1);
  }

  lemma {:induction false} TraceIsPart(audit: seq<AuditEvent>, i: ActionId, k: nat)
    requires k < |Trace(audit, i)|
    ensures Trace(audit, i)[k] in audit
  {
    var front := audit[..|audit| - 1];
    if k < |Trace(front, i)| {
      TraceIsPart(front, i, k);
    }
  }

  predicate Answered(s: State, r: nat, i: ActionId, receipt: Receipt) {
    r in s.requests && s.requests[r] == Returned(Receipted(i, receipt))
  }

  // However many executors race, crash and retry, every `execute` that returns gives the same receipt.
  lemma ExecutorsAgree(cfg: Config, states: seq<State>, events: seq<Event>, m: nat, n: nat, q: nat, r: nat,
                       i: ActionId, x: Receipt, y: Receipt)
    requires IsRun(cfg, states, events) && m <= n < |states|
    requires Answered(states[m], q, i, x) && Answered(states[n], r, i, y)
    ensures x == y && i in states[n].db.actions && states[n].db.actions[i].receipt == Some(x)
  {
    ReachableInv(cfg, states, events, m);
    ReachableInv(cfg, states, events, n);
    RunEvolves(cfg, states, events, m, n);
    var s, t := states[m], states[n];
    assert RequestOk(s.db.actions, s.receipts, s.requests[q]);
    assert RequestOk(t.db.actions, t.receipts, t.requests[r]);
    assert Past(s.db.actions[i], t.db.actions[i]);
  }

  // No other committed action uses this one's idempotency key.
  predicate Unshared(actions: map<ActionId, Action>, i: ActionId) {
    i in actions && forall j | j in actions && actions[j].key == actions[i].key :: j == i
  }

  // The receipt an `execute` returns is for the action it was asked for, unless another tenant uses the same key.
  lemma ReceiptIsForThisAction(cfg: Config, states: seq<State>, events: seq<Event>, n: nat, r: nat, i: ActionId,
                               receipt: Receipt)
    requires IsRun(cfg, states, events) && n < |states| && Answered(states[n], r, i, receipt)
    requires Unshared(states[n].db.actions, i)
    ensures receipt.actionId == i && receipt.decision == states[n].db.actions[i].arguments.decision
  {
    ReachableInv(cfg, states, events, n);
    var s := states[n];
    var a := s.db.actions[i];
    assert RequestOk(s.db.actions, s.receipts, s.requests[r]);
    assert ReceiptKept(s.receipts, a);
    assert ReceiptOk(s.db.actions, a.key, s.receipts[a.key]);
  }

  // Once the supplier was called, `execute` cannot fail: a lost race is answered with the stored receipt.
  lemma LostRaceIsAnswered(cfg: Config, states: seq<State>, events: seq<Event>, n: nat, r: nat)
    requires IsRun(cfg, states, events) && n < |states|
    requires r in states[n].requests && states[n].requests[r].ExecutionRefused?
    ensures var i := states[n].requests[r].id;
            && i in states[n].db.actions && states[n].db.actions[i].receipt.Some?
            && ReconsideredExecution(states[n].db, i) == Returned(Receipted(i, states[n].db.actions[i].receipt.value))
  {
    ReachableInv(cfg, states, events, n);
    var s := states[n];
    assert RequestOk(s.db.actions, s.receipts, s.requests[r]);
    assert ActionOk(s.db.actions[s.requests[r].id]);
  }

  // The request has called the supplier for action `i`, or is about to, or already answered with a receipt.
  predicate Underway(s: State, r: nat, i: ActionId) {
    var underway := r in s.requests &&
      match s.requests[r]
      case SupplierCall(approved, _) => approved.id == i
      case ExecutionReady(approved, _, _) => approved.id == i
      case ExecutionRefused(id) => id == i
      case Returned(Receipted(id, _)) => id == i
      case _ => false;
    underway
  }

  lemma CommitStaysUnderway(cfg: Config, s: State, r: nat, i: ActionId)
    requires Enabled(cfg, s, CommitExecution(r)) && Underway(s, r, i)
    requires Inv(cfg, s)
    ensures Underway(AfterCommitExecution(s, r), r, i)
  {
    assert RequestOk(s.db.actions, s.receipts, s.requests[r]);
  }

  lemma ReconsiderStaysUnderway(cfg: Config, s: State, r: nat, i: ActionId)
    requires Enabled(cfg, s, ReconsiderExecution(r)) && Underway(s, r, i)
    requires Inv(cfg, s)
    ensures Underway(WithRequest(s, r, ReconsideredExecution(s.db, s.requests[r].id)), r, i)
  {
    assert RequestOk(s.db.actions, s.receipts, s.requests[r]);
    assert ActionOk(s.db.actions[i]);
  }

  lemma OwnStepStaysUnderway(cfg: Config, s: State, e: Event, r: nat, i: ActionId)
    requires e.CallSupplier? || e.CommitExecution? || e.ReconsiderExecution?
    requires e.r == r && Enabled(cfg, s, e) && Underway(s, r, i)
    requires Inv(cfg, s)
    ensures Underway(Next(cfg, s, e), r, i)
  {
    if e.CommitExecution? {
      CommitStaysUnderway(cfg, s, r, i);
    } else if e.ReconsiderExecution? {
      ReconsiderStaysUnderway(cfg, s, r, i);
    }
  }

  // No step of another request, and of this one only these and a crash, touches it.
  lemma OthersLeaveRequest(cfg: Config, s: State, e: Event, r: nat, i: ActionId)
    requires Enabled(cfg, s, e) && e != CrashRequest(r) && Underway(s, r, i)
    requires !((e.CallSupplier? || e.CommitExecution? || e.ReconsiderExecution?) && e.r == r)
    ensures r in Next(cfg, s, e).requests && Next(cfg, s, e).requests[r] == s.requests[r]
  {
    if OfRequest(e) {
      RequestMovesItself(cfg, s, e, r);
    } else {
      OthersMoveNoRequest(cfg, s, e);
    }
  }

  lemma StepStaysUnderway(cfg: Config, s: State, e: Event, r: nat, i: ActionId)
    requires Enabled(cfg, s, e) && e != CrashRequest(r) && Underway(s, r, i)
    requires Inv(cfg, s)
    ensures Underway(Next(cfg, s, e), r, i)
  {
    if (e.CallSupplier? || e.CommitExecution? || e.ReconsiderExecution?) && e.r == r {
      OwnStepStaysUnderway(cfg, s, e, r, i);
    } else {
      OthersLeaveRequest(cfg, s, e, r, i);
    }
  }

  // From the supplier call on, only a crash keeps `execute` from answering with a receipt: whatever other
  // requests do, the commit succeeds or is refused because the action is executed, and never ends in a failure.
  lemma {:induction false} ExecutionCannotFail(cfg: Config, states: seq<State>, events: seq<Event>, m: nat, n: nat,
                                               r: nat, i: ActionId)
    requires IsRun(cfg, states, events) && m <= n < |states| && Underway(states[m], r, i)
    requires forall k | m <= k < n :: events[k] != CrashRequest(r)
    ensures Underway(states[n], r, i)
    decreases n
  {
    if m < n {
      ExecutionCannotFail(cfg, states, events, m, n - 1, r, i);
      ReachableInv(cfg, states, events, n - 1);
      assert StepAt(cfg, states, events, n - 1);
      StepStaysUnderway(cfg, states[n - 1], events[n - 1], r, i);
    }
  }

  // Whenever the supplier is called for action `i`, however other requests interleave before and after: any
  // receipt ever answered for `i` is its own exactly when the supplier had none for the key, or one of `i`.
  lemma ReceiptIsOwnExactlyWhen(cfg: Config, states: seq<State>, events: seq<Event>, m: nat, n: nat, q: nat, r: nat,
                                i: ActionId, x: Receipt)
    requires IsRun(cfg, states, events) && m < n < |states|
    requires events[m].CallSupplier? && events[m].r == q
    requires q in states[m].requests && states[m].requests[q].SupplierCall? && states[m].requests[q].approved.id == i
    requires Answered(states[n], r, i, x)
    ensures i in states[m].db.actions
    ensures var receipts, key := states[m].receipts, states[m].db.actions[i].key;
            && (x.actionId == i <==> key !in receipts || receipts[key].actionId == i)
            && (key in receipts ==> x == receipts[key])
  {
    ReachableInv(cfg, states, events, m);
    ReachableInv(cfg, states, events, n);
    assert StepAt(cfg, states, events, m);
    RunEvolves(cfg, states, events, m, n);
    RunEvolves(cfg, states, events, m + 1, n);
    var s, t := states[m], states[n];
    assert RequestOk(s.db.actions, s.receipts, s.requests[q]);
    assert RequestOk(t.db.actions, t.receipts, t.requests[r]);
    assert Past(s.db.actions[i], t.db.actions[i]);
    assert ReceiptKept(t.receipts, t.db.actions[i]);
  }

  // ---------------------------------------------------------------- history

  // The status an action's events lead to, read one by one.
  function Follow(status: Option<Status>, kind: AuditKind): Option<Status> {
    match kind
    case ActionProposed => if status.None? then Some(PendingApproval) else None
    case ActionApproved => if status == Some(PendingApproval) then Some(Status.Approved) else None
    case ActionRejected => if status == Some(PendingApproval) then Some(Status.Rejected) else None
    case ActionExecuted => if status == Some(Status.Approved) then Some(Status.Executed) else None
  }

  function Replay(audit: seq<AuditEvent>, i: ActionId): Option<Status> {
    if audit == [] then None
    else
      var before := Replay(audit[..|audit| - 1], i);
      var last := audit[|audit| - 1];
      if last.actionId == i then Follow(before, last.kind) else before
  }

  lemma {:induction false} ReplayFollowsTrace(audit: seq<AuditEvent>, i: ActionId)
    ensures Replay(audit, i) == Replay(Trace(audit, i), i)
  {
    if audit != [] {
      var front, last := audit[..|audit| - 1], audit[|audit| - 1];
      ReplayFollowsTrace(front, i);
      if last.actionId == i {
        assert (Trace(front, i) + [last])[..|Trace(front, i)|] == Trace(front, i);
      } else {
        assert Trace(front, i) + [] == Trace(front, i);
      }
    }
  }

  lemma ReplayOfStory(trace: seq<AuditEvent>, a: Action)
    requires Tells(trace, a)
    ensures Replay(trace, a.id) == Some(a.status)
  {
    assert Replay([], a.id) == None;
    assert trace[..1] == [trace[0]];
    assert Replay(trace[..1], a.id) == Some(PendingApproval) by {
      assert trace[..1][..0] == [];
    }
    if |trace| > 1 {
      assert trace[..2][..1] == trace[..1];
      assert trace[..2][1] == trace[1];
    }
    if |trace| == 2 {
      assert trace[..2] == trace;
    } else if |trace| == 3 {
      assert trace[..3] == trace;
    } else {
      assert trace[..1] == trace;
    }
  }

  // Replaying an action's audit events gives its stored status; uncommitted actions have none.
  lemma AuditIsHistory(cfg: Config, states: seq<State>, events: seq<Event>, n: nat, i: ActionId)
    requires IsRun(cfg, states, events) && n < |states|
    ensures Replay(states[n].db.audit, i)
            == if i in states[n].db.actions then Some(states[n].db.actions[i].status) else None
  {
    ReachableInv(cfg, states, events, n);
    var s := states[n];
    ReplayFollowsTrace(s.db.audit, i);
    if i in s.db.actions {
      assert Tells(Trace(s.db.audit, i), s.db.actions[i]);
      ReplayOfStory(Trace(s.db.audit, i), s.db.actions[i]);
    } else {
      NoTrace(s.db.audit, i);
    }
  }

  // From one state to any later one, an action keeps its proposal and moves along the lifecycle only, and the
  // audit log only grows.
  lemma ActionsOnlyProgress(cfg: Config, states: seq<State>, events: seq<Event>, m: nat, n: nat, i: ActionId)
    requires IsRun(cfg, states, events) && m <= n < |states| && i in states[m].db.actions
    ensures i in states[n].db.actions && Past(states[m].db.actions[i], states[n].db.actions[i])
    ensures states[n].db.actions[i].approver.Some? ==>
              states[n].db.actions[i].approver.value != states[n].db.actions[i].proposer
    ensures states[m].db.audit <= states[n].db.audit
  {
    RunEvolves(cfg, states, events, m, n);
    ReachableInv(cfg, states, events, n);
    assert ActionOk(states[n].db.actions[i]);
  }

  // ---------------------------------------------------------------- the polling workflow

  // A polled outcome is final and stays true of the action: success means approved or executed from then
  // on; rejection means it is never executed and never reaches the supplier.
  lemma PolledOutcomeStaysTrue(cfg: Config, states: seq<State>, events: seq<Event>, m: nat, n: nat, name: string)
    requires IsRun(cfg, states, events) && m <= n < |states|
    requires name in states[m].executions && states[m].executions[name].outcome != Running
    ensures name in states[n].executions && states[n].executions[name] == states[m].executions[name]
    ensures var e := states[m].executions[name];
            var i := e.input.actionId;
            && i in states[n].db.actions && e.outcome != UnexpectedOutcome
            && (e.outcome == Succeeded ==>
                  states[n].db.actions[i].status == Status.Approved
                    || states[n].db.actions[i].status == Status.Executed)
            && (e.outcome == RejectedOutcome ==>
                  && states[n].db.actions[i].status == Status.Rejected
                  && forall k | k in states[n].receipts :: states[n].receipts[k].actionId != i)
  {
    var t := states[n];
    RunEvolves(cfg, states, events, m, n);
    ReachableInv(cfg, states, events, n);
    assert ExecutionOk(cfg, t.db.actions, name, t.executions[name]);
    forall k | k in t.receipts ensures ReceiptOk(t.db.actions, k, t.receipts[k]) {
    }
  }

  // ---------------------------------------------------------------- racing proposals

  // However many proposals race for one tenant and key, they leave one action and one `proposed` event.
  lemma OneActionPerKey(cfg: Config, states: seq<State>, events: seq<Event>, n: nat, i: ActionId, j: ActionId)
    requires IsRun(cfg, states, events) && n < |states|
    requires i in states[n].db.actions && j in states[n].db.actions
    requires states[n].db.actions[i].tenant == states[n].db.actions[j].tenant
    requires states[n].db.actions[i].key == states[n].db.actions[j].key
    ensures i == j
    ensures var trace := Trace(states[n].db.audit, i);
            trace != [] && trace[0] == ProposedEvent(states[n].db.actions[i])
            && forall k | 0 < k < |trace| :: trace[k].kind != ActionProposed
  {
    ReachableInv(cfg, states, events, n);
    var s := states[n];
    assert !KeyClash(s.db.actions, i, j);
    assert Tells(Trace(s.db.audit, i), s.db.actions[i]);
  }

  // All three tables take one row each, or none of them changes.
  ghost predicate AllOrNothing(before: Database, after: Database, action: Action, mid: Uuid) {
    || after == before
    || (&& action.id !in before.actions && after.actions == before.actions[action.id := NewRow(action)]
        && mid !in before.messages && after.messages.Keys == before.messages.Keys + {mid}
        && after.messages[mid].aggregateId == action.id && after.messages - {mid} == before.messages
        && after.audit == before.audit + [ProposedEvent(action)])
  }

  // What a proposer is told: the stored action for its own case and review, or a conflict.
  predicate Settled(actions: map<ActionId, Action>, action: Action, answer: Answer) {
    match answer
    case Stored(a) => Known(actions, a) && a.tenant == action.tenant && a.key == action.key
                      && a.caseId == action.caseId && a.reviewId == action.reviewId
    case Receipted(_, _) => false
    case Failure(f) => f == IdempotencyConflict || f == IntegrityFailure
  }

  lemma CommitIsAllOrNothing(cfg: Config, states: seq<State>, events: seq<Event>, n: nat)
    requires IsRun(cfg, states, events) && n < |events| && events[n].CommitProposal?
    requires events[n].r in states[n].requests && states[n].requests[events[n].r].ProposalReady?
    ensures var r := events[n].r;
            var action := states[n].requests[r].action;
            && AllOrNothing(states[n].db, states[n + 1].db, action, events[n].mid)
            && r in states[n + 1].requests
            && (states[n + 1].requests[r] == ProposalRefused(action) <==> states[n + 1].db == states[n].db)
            && (states[n + 1].db != states[n].db ==>
                  && states[n + 1].requests[r].Returned?
                  && Settled(states[n + 1].db.actions, action, states[n + 1].requests[r].answer))
  {
    assert StepAt(cfg, states, events, n);
    ReachableInv(cfg, states, events, n);
    var s, r, mid := states[n], events[n].r, events[n].mid;
    assert RequestOk(s.db.actions, s.receipts, s.requests[r]);
    if !Violates(s.db, s.requests[r].action, mid) {
      var after := InsertProposal(s.db, s.requests[r].action, mid, events[n].now);
      assert |after.audit| == |s.db.audit| + 1;
      assert after.messages - {mid} == s.db.messages;
    }
  }

  // Every other answer to a proposer is read from what is stored.
  lemma RacersAreSettled(cfg: Config, states: seq<State>, events: seq<Event>, n: nat, action: Action)
    requires IsRun(cfg, states, events) && n < |states|
    ensures var answer := ReconsideredProposal(states[n].db, action).answer;
            && Settled(states[n].db.actions, action, answer)
            && (answer == Failure(IntegrityFailure) <==>
                  forall i | i in states[n].db.actions ::
                    !(states[n].db.actions[i].tenant == action.tenant && states[n].db.actions[i].key == action.key))
  {
    ReachableInv(cfg, states, events, n);
    FoundIsKnown(states[n].db, action.tenant, action.key);
  }

  // ---------------------------------------------------------------- one proposal, from its begin to its end

  // The case's tenant used the key for another case or review.
  ghost predicate UsedElsewhere(actions: map<ActionId, Action>, p: Proposal) {
    exists i :: i in actions && actions[i].tenant == p.caseTenant && actions[i].key == p.key
                && (actions[i].caseId != p.caseId || actions[i].reviewId != p.reviewId)
  }

  // What a proposer may be told, and when.
  ghost predicate ProposalAnswer(actions: map<ActionId, Action>, p: Proposal, answer: Answer) {
    match answer
    case Stored(a) =>
      Known(actions, a) && (a.tenant, a.key, a.caseId, a.reviewId) == (p.caseTenant, p.key, p.caseId, p.reviewId)
    case Receipted(_, _) => false
    case Failure(Denied) => !p.principal.HasRole(Analyst) || !p.principal.MayAccess(p.caseTenant)
    case Failure(WrongCase) => p.reviewCaseId != p.caseId
    case Failure(IdempotencyConflict) => UsedElsewhere(actions, p)
    case Failure(f) => f == IntegrityFailure
  }

  // The request holds the action of its own proposal, or is answered.
  ghost predicate Pursues(s: State, r: nat, p: Proposal, now: Time) {
    var pursued := r in s.requests &&
      match s.requests[r]
      case ProposalReady(a) => a == ProposedAction(p, now)
      case ProposalRefused(a) => a == ProposedAction(p, now)
      case Returned(answer) => ProposalAnswer(s.db.actions, p, answer)
      case _ => false;
    pursued
  }

  lemma ProposalAnswerStays(before: map<ActionId, Action>, after: map<ActionId, Action>, p: Proposal, answer: Answer)
    requires Grows(before, after) && ProposalAnswer(before, p, answer)
    ensures ProposalAnswer(after, p, answer)
  {
    if answer.Stored? {
      PastIsTransitive(answer.action, before[answer.action.id], after[answer.action.id]);
    } else if answer == Failure(IdempotencyConflict) {
      var i :| i in before && before[i].tenant == p.caseTenant && before[i].key == p.key
               && (before[i].caseId != p.caseId || before[i].reviewId != p.reviewId);
      assert Past(before[i], after[i]);
    }
  }

  // What either look at the tables finds is an answer.
  lemma FoundProposal(db: Database, p: Proposal, now: Time)
    requires ActionsOk(db.actions) && FindByKey(db, p.caseTenant, p.key).Some?
    ensures ProposalAnswer(db.actions, p, Resolve(FindByKey(db, p.caseTenant, p.key).value, ProposedAction(p, now)))
  {
    FoundIsKnown(db, p.caseTenant, p.key);
  }

  lemma BeginPursues(cfg: Config, s: State, r: nat, p: Proposal, now: Time)
    requires Inv(cfg, s)
    ensures Pursues(WithRequest(s, r, BegunProposal(s.db, p, now)), r, p, now)
  {
    if FindByKey(s.db, p.caseTenant, p.key).Some? {
      FoundProposal(s.db, p, now);
    }
  }

  lemma CommitPursues(cfg: Config, s: State, r: nat, mid: Uuid, commit: Time, p: Proposal, now: Time)
    requires Enabled(cfg, s, CommitProposal(r, mid, commit)) && Pursues(s, r, p, now)
    ensures Pursues(AfterCommitProposal(s, r, mid, commit), r, p, now)
  {
  }

  lemma ReconsiderPursues(cfg: Config, s: State, r: nat, p: Proposal, now: Time)
    requires Enabled(cfg, s, ReconsiderProposal(r)) && Pursues(s, r, p, now)
    requires Inv(cfg, s)
    ensures Pursues(WithRequest(s, r, ReconsideredProposal(s.db, s.requests[r].action)), r, p, now)
  {
    if FindByKey(s.db, p.caseTenant, p.key).Some? {
      FoundProposal(s.db, p, now);
    }
  }

  // Steps that are not its own leave the request, and its answer stays true.
  lemma OthersLetPursue(cfg: Config, s: State, e: Event, r: nat, p: Proposal, now: Time)
    requires Sound(cfg) && Enabled(cfg, s, e) && Pursues(s, r, p, now) && !(OfRequest(e) && e.r == r)
    requires Inv(cfg, s)
    ensures Pursues(Next(cfg, s, e), r, p, now)
  {
    StepEvolves(cfg, s, e);
    if OfRequest(e) {
      RequestMovesItself(cfg, s, e, r);
    } else {
      OthersMoveNoRequest(cfg, s, e);
    }
    if s.requests[r].Returned? {
      ProposalAnswerStays(s.db.actions, Next(cfg, s, e).db.actions, p, s.requests[r].answer);
    }
  }

  lemma StepPursues(cfg: Config, s: State, e: Event, r: nat, p: Proposal, now: Time)
    requires Sound(cfg) && Enabled(cfg, s, e) && Pursues(s, r, p, now) && e != CrashRequest(r)
    requires Inv(cfg, s)
    ensures Pursues(Next(cfg, s, e), r, p, now)
  {
    if e.CommitProposal? && e.r == r {
      CommitPursues(cfg, s, r, e.mid, e.now, p, now);
    } else if e.ReconsiderProposal? && e.r == r {
      ReconsiderPursues(cfg, s, r, p, now);
    } else {
      OthersLetPursue(cfg, s, e, r, p, now);
    }
  }

  // However proposals race, from its begin on a proposal that does not crash is on its way with its own action, or
  // was answered: with the stored action of its own case and review, whether the first look, the commit or the
  // second look found it; with a conflict, because its tenant used the key elsewhere; denied; or with the
  // integrity error.
  lemma {:induction false} ProposalIsAnswered(cfg: Config, states: seq<State>, events: seq<Event>, m: nat, n: nat,
                                              r: nat, p: Proposal, now: Time)
    requires IsRun(cfg, states, events) && m < n < |states| && events[m] == BeginProposal(r, p, now)
    requires forall k | m < k < n :: events[k] != CrashRequest(r)
    ensures Pursues(states[n], r, p, now)
    decreases n
  {
    ReachableInv(cfg, states, events, n - 1);
    assert StepAt(cfg, states, events, n - 1);
    if n == m + 1 {
      BeginPursues(cfg, states[m], r, p, now);
    } else {
      ProposalIsAnswered(cfg, states, events, m, n - 1, r, p, now);
      StepPursues(cfg, states[n - 1], events[n - 1], r, p, now);
    }
  }
}
