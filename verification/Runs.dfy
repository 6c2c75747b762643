/**
 Runs of the protocol, and how each step moves the shared state.
 */
module Runs {
  import opened Model
  import opened Transactions
  import opened Approvals
  import opened Protocol
  import opened Invariant
  import opened TableProofs
  import opened StepProofs

  ghost predicate StepAt(cfg: Config, states: seq<State>, events: seq<Event>, i: nat)
    requires i < |events| && i + 1 < |states|
  {
    Enabled(cfg, states[i], events[i]) && states[i + 1] == Next(cfg, states[i], events[i])
  }

  // Any interleaving of any number of requests, workers and crashes, from empty tables.
  ghost predicate IsRun(cfg: Config, states: seq<State>, events: seq<Event>) {
    var starts := Sound(cfg) && |states| == |events| + 1 && states[0] == INITIAL;
    var runs := starts && forall i {:trigger StepAt(cfg, states, events, i)} | 0 <= i < |events| ::
      StepAt(cfg, states, events, i);
    runs
  }

  lemma {:induction false} ReachableInv(cfg: Config, states: seq<State>, events: seq<Event>, n: nat)
    requires IsRun(cfg, states, events) && n < |states|
    ensures Inv(cfg, states[n])
    decreases n
  {
    if n == 0 {
      InitialInv(cfg);
    } else {
      ReachableInv(cfg, states, events, n - 1);
      assert StepAt(cfg, states, events, n - 1);
      StepKeepsInv(cfg, states[n - 1], events[n - 1]);
    }
  }

  // ---------------------------------------------------------------- rows

  // The claim, failure or publication of message `m` that event `e` makes in state `s`, if any.
  predicate Claims(e: Event, m: Uuid) {
    e.ClaimBatch? && m in e.claimed
  }

  predicate Holds(s: State, w: WorkerId, m: Uuid) {
    && Busy(s, w) && s.workers[w].todo[0].id == m
    && m in s.db.messages && s.db.messages[m].lockedBy == Some(w)
  }

  predicate Fails(s: State, e: Event, m: Uuid) {
    e.RecordFailed? && Holds(s, e.w, m)
  }

  predicate Publishes(s: State, e: Event, m: Uuid) {
    e.Acknowledge? && Holds(s, e.w, m) && s.db.messages[m].publishedAt.None?
  }

  predicate Releases(s: State, e: Event, m: Uuid) {
    Fails(s, e, m) || Publishes(s, e, m)
  }

  // What the event does to the row of `m`.
  predicate RowMoves(cfg: Config, s: State, e: Event, t: State, m: Uuid)
    requires m in s.db.messages
  {
    && m in t.db.messages
    && var row, row' := s.db.messages[m], t.db.messages[m];
       if Claims(e, m) then row' == Leased(row, e.w, e.now)
       else if Fails(s, e, m) then
         var d := s.workers[e.w];
         d.phase.Failing? && row' == FailedRow(row, d.phase.error, RetryAt(cfg, d), cfg.maxAttempts, d.now)
       else if Publishes(s, e, m) then
         var d := s.workers[e.w];
         d.phase.Acknowledging? && row' == Published(row, d.phase.reference, d.now)
       else row' == row
  }

  // An acknowledgement either commits, or leaves the tables alone.
  lemma AcknowledgeMoves(cfg: Config, s: State, w: WorkerId)
    requires Enabled(cfg, s, Acknowledge(w)) && Inv(cfg, s)
    ensures var mid := s.workers[w].todo[0].id;
            if Publishes(s, Acknowledge(w), mid)
            then LinkOk(s.db.actions, s.db.messages[mid])
                 && AfterAcknowledge(s, w).db == Acknowledged(s.db, mid, s.workers[w].phase.reference, s.workers[w].now)
            else AfterAcknowledge(s, w).db == s.db
  {
    var d := s.workers[w];
    var mid := d.todo[0].id;
    assert DispatchOk(cfg, s.db, s.executions, w, d);
    assert SnapshotOk(s.db.messages, w, d.now, d.todo[0]);
    if Publishes(s, Acknowledge(w), mid) {
      assert LinkOk(s.db.actions, s.db.messages[mid]);
      ReferenceIsText(cfg, d.todo[0].aggregateId);
      MarkPublishedCommits(s.db, mid, w, d.phase.reference, d.now);
    }
  }

  lemma AcknowledgeRowStep(cfg: Config, s: State, w: WorkerId, m: Uuid)
    requires Enabled(cfg, s, Acknowledge(w)) && m in s.db.messages && Inv(cfg, s)
    ensures RowMoves(cfg, s, Acknowledge(w), AfterAcknowledge(s, w), m)
  {
    AcknowledgeMoves(cfg, s, w);
  }

  lemma FailureRowStep(cfg: Config, s: State, w: WorkerId, m: Uuid)
    requires Enabled(cfg, s, RecordFailed(w)) && m in s.db.messages
    ensures RowMoves(cfg, s, RecordFailed(w), AfterRecordFailed(cfg, s, w), m)
  {
  }

  lemma ClaimRowStep(cfg: Config, s: State, e: Event, m: Uuid)
    requires e.ClaimBatch? && Enabled(cfg, s, e) && m in s.db.messages
    ensures RowMoves(cfg, s, e, AfterClaim(s, e.w, e.now, e.claimed), m)
  {
  }

  lemma CommitRowStep(cfg: Config, s: State, e: Event, m: Uuid)
    requires e.CommitProposal? || e.CommitDecision? || e.CommitExecution?
    requires Enabled(cfg, s, e) && m in s.db.messages
    ensures RowMoves(cfg, s, e, Next(cfg, s, e), m)
  {
  }

  predicate Writes(e: Event) {
    e.CommitProposal? || e.CommitDecision? || e.CommitExecution? || e.ClaimBatch? || e.Acknowledge? || e.RecordFailed?
  }

  lemma OthersLeaveTables(cfg: Config, s: State, e: Event)
    requires !Writes(e) && Enabled(cfg, s, e)
    ensures Next(cfg, s, e).db == s.db
  {
  }

  // A database transaction touches no external service.
  lemma CommitsSpareServices(cfg: Config, s: State, e: Event)
    requires Enabled(cfg, s, e) && (e.CommitProposal? || e.CommitDecision? || e.CommitExecution?)
    ensures Next(cfg, s, e).executions == s.executions && Next(cfg, s, e).receipts == s.receipts
  {
    match e
    case CommitProposal(r, mid, now) => assert AfterCommitProposal(s, r, mid, now).receipts == s.receipts;
    case CommitDecision(r) => assert AfterCommitDecision(s, r).receipts == s.receipts;
    case CommitExecution(r) => assert AfterCommitExecution(s, r).receipts == s.receipts;
  }

  lemma RecordsSpareServices(cfg: Config, s: State, e: Event)
    requires Enabled(cfg, s, e) && (e.ClaimBatch? || e.Acknowledge? || e.RecordFailed?)
    ensures Next(cfg, s, e).executions == s.executions && Next(cfg, s, e).receipts == s.receipts
  {
    match e
    case ClaimBatch(w, now, _, claimed) => assert AfterClaim(s, w, now, claimed).receipts == s.receipts;
    case Acknowledge(w) => assert AfterAcknowledge(s, w).receipts == s.receipts;
    case RecordFailed(w) => assert AfterRecordFailed(cfg, s, w).receipts == s.receipts;
  }

  lemma WritesSpareServices(cfg: Config, s: State, e: Event)
    requires Enabled(cfg, s, e) && Writes(e)
    ensures Next(cfg, s, e).executions == s.executions && Next(cfg, s, e).receipts == s.receipts
  {
    if e.CommitProposal? || e.CommitDecision? || e.CommitExecution? {
      CommitsSpareServices(cfg, s, e);
    } else {
      RecordsSpareServices(cfg, s, e);
    }
  }

  lemma OtherRowStep(cfg: Config, s: State, e: Event, m: Uuid)
    requires !Writes(e) && Enabled(cfg, s, e) && m in s.db.messages
    ensures RowMoves(cfg, s, e, Next(cfg, s, e), m)
  {
    OthersLeaveTables(cfg, s, e);
  }

  lemma RowStep(cfg: Config, s: State, e: Event, m: Uuid)
    requires Enabled(cfg, s, e) && m in s.db.messages && Inv(cfg, s)
    ensures RowMoves(cfg, s, e, Next(cfg, s, e), m)
  {
    if e.Acknowledge? {
      AcknowledgeRowStep(cfg, s, e.w, m);
    } else if e.RecordFailed? {
      FailureRowStep(cfg, s, e.w, m);
    } else if e.ClaimBatch? {
      ClaimRowStep(cfg, s, e, m);
    } else if e.CommitProposal? || e.CommitDecision? || e.CommitExecution? {
      CommitRowStep(cfg, s, e, m);
    } else {
      OtherRowStep(cfg, s, e, m);
    }
  }

  // Only a proposal commit adds an action.
  lemma SavesAddNothing(db: Database, action: Action, event: AuditEvent, expected: Status)
    ensures var saved := SaveTransition(db, action, event, expected);
            saved.Ok? ==> saved.value.actions.Keys == db.actions.Keys
  {
  }

  lemma PublicationsAddNothing(db: Database, mid: Uuid, w: WorkerId, reference: string, now: Time)
    ensures var published := MarkPublished(db, mid, w, reference, now);
            published.Ok? ==> published.value.actions.Keys == db.actions.Keys
  {
  }

  lemma WritesAddNothing(cfg: Config, s: State, e: Event)
    requires Writes(e) && !e.CommitProposal? && Enabled(cfg, s, e)
    ensures Next(cfg, s, e).db.actions.Keys == s.db.actions.Keys
  {
    match e
    case CommitDecision(r) =>
      var decided := s.requests[r].decided;
      SavesAddNothing(s.db, decided, DecisionEvent(decided), PendingApproval);
    case CommitExecution(r) =>
      var executed := Executing(s.requests[r].approved, s.requests[r].receipt);
      SavesAddNothing(s.db, executed, ExecutionEvent(executed, s.requests[r].actor), Status.Approved);
    case ClaimBatch(w, now, _, claimed) => assert AfterClaim(s, w, now, claimed).db.actions == s.db.actions;
    case Acknowledge(w) =>
      var d := s.workers[w];
      PublicationsAddNothing(s.db, d.todo[0].id, w, d.phase.reference, d.now);
    case RecordFailed(w) => assert AfterRecordFailed(cfg, s, w).db.actions == s.db.actions;
  }

  lemma OthersAddNothing(cfg: Config, s: State, e: Event)
    requires !e.CommitProposal? && Enabled(cfg, s, e)
    ensures Next(cfg, s, e).db.actions.Keys == s.db.actions.Keys
  {
    if Writes(e) {
      WritesAddNothing(cfg, s, e);
    } else {
      OthersLeaveTables(cfg, s, e);
    }
  }

  // ---------------------------------------------------------------- requests

  // The event is a step of one request.
  predicate OfRequest(e: Event) {
    || e.BeginProposal? || e.CommitProposal? || e.ReconsiderProposal? || e.BeginDecision? || e.CommitDecision?
    || e.BeginExecution? || e.CallSupplier? || e.CommitExecution? || e.ReconsiderExecution? || e.CrashRequest?
  }

  lemma OthersMoveNoRequest(cfg: Config, s: State, e: Event)
    requires !OfRequest(e) && Enabled(cfg, s, e)
    ensures Next(cfg, s, e).requests == s.requests
  {
  }

  lemma CommitMovesItself(cfg: Config, s: State, e: Event, r: nat)
    requires e.CommitProposal? || e.CommitDecision? || e.CommitExecution?
    requires Enabled(cfg, s, e) && r in s.requests && e.r != r
    ensures r in Next(cfg, s, e).requests && Next(cfg, s, e).requests[r] == s.requests[r]
  {
    match e
    case CommitProposal(q, mid, now) => assert AfterCommitProposal(s, q, mid, now).requests[r] == s.requests[r];
    case CommitDecision(q) => assert AfterCommitDecision(s, q).requests[r] == s.requests[r];
    case CommitExecution(q) => assert AfterCommitExecution(s, q).requests[r] == s.requests[r];
  }

  lemma RequestMovesItself(cfg: Config, s: State, e: Event, r: nat)
    requires OfRequest(e) && Enabled(cfg, s, e) && r in s.requests && e.r != r
    ensures r in Next(cfg, s, e).requests && Next(cfg, s, e).requests[r] == s.requests[r]
  {
    if Writes(e) {
      CommitMovesItself(cfg, s, e, r);
    }
  }

  // ---------------------------------------------------------------- everything else

  predicate RowsLast(before: map<Uuid, Message>, after: map<Uuid, Message>) {
    forall m | m in before :: m in after && SameMessage(before[m], after[m])
  }

  // Nothing shared is ever taken back.
  ghost predicate Evolves(s: State, t: State) {
    var tables := Grows(s.db.actions, t.db.actions) && RowsLast(s.db.messages, t.db.messages)
      && s.db.audit <= t.db.audit;
    var services := ReceiptsGrow(s.receipts, t.receipts) && ExecutionsGrow(s.executions, t.executions);
    tables && services
  }

  lemma StayingEvolves(s: State, t: State)
    requires t.db == s.db && t.receipts == s.receipts && t.executions == s.executions
    ensures Evolves(s, t)
  {
  }

  lemma CommitProposalEvolves(cfg: Config, s: State, r: nat, mid: Uuid, now: Time)
    requires Enabled(cfg, s, CommitProposal(r, mid, now)) && Inv(cfg, s)
    ensures Evolves(s, AfterCommitProposal(s, r, mid, now))
  {
    assert RequestOk(s.db.actions, s.receipts, s.requests[r]);
    if !Violates(s.db, s.requests[r].action, mid) {
      InsertActions(s.db, s.requests[r].action, mid, now);
    }
  }

  lemma CommitDecisionEvolves(cfg: Config, s: State, r: nat)
    requires Enabled(cfg, s, CommitDecision(r)) && Inv(cfg, s)
    ensures Evolves(s, AfterCommitDecision(s, r))
  {
    var decided := s.requests[r].decided;
    assert RequestOk(s.db.actions, s.receipts, s.requests[r]);
    if s.db.actions[decided.id].status == PendingApproval {
      DecisionIsLawful(s.db, s.receipts, decided);
    }
  }

  lemma CallSupplierEvolves(cfg: Config, s: State, r: nat, now: Time)
    requires Enabled(cfg, s, CallSupplier(r, now)) && Inv(cfg, s)
    ensures Evolves(s, AfterCallSupplier(s, r, now))
  {
    assert RequestOk(s.db.actions, s.receipts, s.requests[r]);
    SupplierKeeps(s.db.actions, s.receipts, s.requests[r].approved, now);
  }

  lemma CommitExecutionEvolves(cfg: Config, s: State, r: nat)
    requires Enabled(cfg, s, CommitExecution(r)) && Inv(cfg, s)
    ensures Evolves(s, AfterCommitExecution(s, r))
  {
    var request := s.requests[r];
    assert RequestOk(s.db.actions, s.receipts, request);
    if s.db.actions[request.approved.id].status == Status.Approved {
      ExecutionIsLawful(s.db, request.approved, request.receipt, request.actor);
    }
  }

  lemma ClaimEvolves(cfg: Config, s: State, e: Event)
    requires e.ClaimBatch? && Enabled(cfg, s, e)
    ensures Evolves(s, AfterClaim(s, e.w, e.now, e.claimed))
  {
    forall m | m in s.db.messages ensures RowMoves(cfg, s, e, AfterClaim(s, e.w, e.now, e.claimed), m) {
      ClaimRowStep(cfg, s, e, m);
    }
  }

  lemma FailureEvolves(cfg: Config, s: State, w: WorkerId)
    requires Enabled(cfg, s, RecordFailed(w))
    ensures Evolves(s, AfterRecordFailed(cfg, s, w))
  {
    forall m | m in s.db.messages ensures RowMoves(cfg, s, RecordFailed(w), AfterRecordFailed(cfg, s, w), m) {
      FailureRowStep(cfg, s, w, m);
    }
  }

  lemma AcknowledgeEvolves(cfg: Config, s: State, w: WorkerId)
    requires Enabled(cfg, s, Acknowledge(w)) && Inv(cfg, s)
    ensures Evolves(s, AfterAcknowledge(s, w))
  {
    AcknowledgeMoves(cfg, s, w);
    var mid := s.workers[w].todo[0].id;
    if Publishes(s, Acknowledge(w), mid) {
      AcknowledgedRows(s.db, mid, s.workers[w].phase.reference, s.workers[w].now);
      PublishActions(s.db, mid, s.workers[w].phase.reference, s.workers[w].now);
    }
  }

  lemma StartEvolves(cfg: Config, s: State, w: WorkerId, fortune: Fortune)
    requires Sound(cfg) && Enabled(cfg, s, StartWorkflow(w, fortune)) && Inv(cfg, s)
    ensures Evolves(s, AfterStart(cfg, s, w, fortune))
  {
    assert DispatchOk(cfg, s.db, s.executions, w, s.workers[w]);
    StartExecutions(cfg, s.db.actions, s.executions, s.workers[w].phase.action, fortune);
  }

  lemma CommitEvolves(cfg: Config, s: State, e: Event)
    requires e.CommitProposal? || e.CommitDecision? || e.CommitExecution?
    requires Enabled(cfg, s, e) && Inv(cfg, s)
    ensures Evolves(s, Next(cfg, s, e))
  {
    match e
    case CommitProposal(r, mid, now) => CommitProposalEvolves(cfg, s, r, mid, now);
    case CommitDecision(r) => CommitDecisionEvolves(cfg, s, r);
    case CommitExecution(r) => CommitExecutionEvolves(cfg, s, r);
  }

  lemma OutboxEvolves(cfg: Config, s: State, e: Event)
    requires e.ClaimBatch? || e.Acknowledge? || e.RecordFailed?
    requires Enabled(cfg, s, e) && Inv(cfg, s)
    ensures Evolves(s, Next(cfg, s, e))
  {
    match e
    case ClaimBatch(_, _, _, _) => ClaimEvolves(cfg, s, e);
    case Acknowledge(w) => AcknowledgeEvolves(cfg, s, w);
    case RecordFailed(w) => FailureEvolves(cfg, s, w);
  }

  lemma ServiceEvolves(cfg: Config, s: State, e: Event)
    requires Sound(cfg) && !Writes(e) && Enabled(cfg, s, e)
    requires Inv(cfg, s)
    ensures Evolves(s, Next(cfg, s, e))
  {
    if e.CallSupplier? {
      CallSupplierEvolves(cfg, s, e.r, e.now);
    } else if e.StartWorkflow? {
      StartEvolves(cfg, s, e.w, e.fortune);
    } else if !e.Poll? && !e.Expire? {
      StayingEvolves(s, Next(cfg, s, e));
    }
  }

  lemma StepEvolves(cfg: Config, s: State, e: Event)
    requires Sound(cfg) && Enabled(cfg, s, e)
    requires Inv(cfg, s)
    ensures Evolves(s, Next(cfg, s, e))
  {
    if e.CommitProposal? || e.CommitDecision? || e.CommitExecution? {
      CommitEvolves(cfg, s, e);
    } else if e.ClaimBatch? || e.Acknowledge? || e.RecordFailed? {
      OutboxEvolves(cfg, s, e);
    } else {
      ServiceEvolves(cfg, s, e);
    }
  }

  lemma GrowsTransitive(a: map<ActionId, Action>, b: map<ActionId, Action>, c: map<ActionId, Action>)
    requires Grows(a, b) && Grows(b, c)
    ensures Grows(a, c)
  {
    forall i | i in a ensures i in c && Past(a[i], c[i]) {
      PastIsTransitive(a[i], b[i], c[i]);
    }
  }

  lemma EvolvesTransitive(s: State, t: State, u: State)
    requires Evolves(s, t) && Evolves(t, u)
    ensures Evolves(s, u)
  {
    GrowsTransitive(s.db.actions, t.db.actions, u.db.actions);
  }

  lemma EvolvesAt(cfg: Config, states: seq<State>, events: seq<Event>, i: nat)
    requires IsRun(cfg, states, events) && i < |events|
    ensures Evolves(states[i], states[i + 1])
  {
    ReachableInv(cfg, states, events, i);
    assert StepAt(cfg, states, events, i);
    StepEvolves(cfg, states[i], events[i]);
  }

  lemma {:induction false} RunEvolves(cfg: Config, states: seq<State>, events: seq<Event>, i: nat, j: nat)
    requires IsRun(cfg, states, events) && i <= j < |states|
    ensures Evolves(states[i], states[j])
    decreases j
  {
    if i == j {
      StayingEvolves(states[i], states[j]);
    } else {
      RunEvolves(cfg, states, events, i, j - 1);
      EvolvesAt(cfg, states, events, j - 1);
      EvolvesTransitive(states[i], states[j - 1], states[j]);
    }
  }

  // ---------------------------------------------------------------- finite runs between two states

  // The events, one after another, lead from `s` to `t`.
  ghost predicate Leads(cfg: Config, s: State, es: seq<Event>, t: State)
    decreases |es|
  {
    var goes := if es == [] then s == t else Enabled(cfg, s, es[0]) && Leads(cfg, Next(cfg, s, es[0]), es[1..], t);
    goes
  }

  lemma {:induction false} LeadsOn(cfg: Config, s: State, es: seq<Event>, t: State, fs: seq<Event>, u: State)
    requires Leads(cfg, s, es, t) && Leads(cfg, t, fs, u)
    ensures Leads(cfg, s, es + fs, u)
    decreases |es|
  {
    if es == [] {
      assert es + fs == fs;
    } else {
      LeadsOn(cfg, Next(cfg, s, es[0]), es[1..], t, fs, u);
      assert (es + fs)[0] == es[0] && (es + fs)[1..] == es[1..] + fs;
    }
  }

  lemma OneStep(cfg: Config, s: State, e: Event)
    requires Enabled(cfg, s, e)
    ensures Leads(cfg, s, [e], Next(cfg, s, e))
  {
    assert Leads(cfg, Next(cfg, s, e), [e][1..], Next(cfg, s, e));
  }

  lemma Then(cfg: Config, s: State, es: seq<Event>, t: State, e: Event)
    requires Leads(cfg, s, es, t) && Enabled(cfg, t, e)
    ensures Leads(cfg, s, es + [e], Next(cfg, t, e))
  {
    OneStep(cfg, t, e);
    LeadsOn(cfg, s, es, t, [e], Next(cfg, t, e));
  }

  // What leads on from the last state of a run makes a longer run.
  lemma {:induction false} ExtendRun(cfg: Config, states: seq<State>, events: seq<Event>, es: seq<Event>, t: State)
    returns (longer: seq<State>)
    requires IsRun(cfg, states, events) && Leads(cfg, states[|events|], es, t)
    ensures IsRun(cfg, longer, events + es) && longer[|events| + |es|] == t
    decreases |es|
  {
    if es == [] {
      longer := states;
      assert events + es == events;
    } else {
      var more, first := states + [Next(cfg, states[|events|], es[0])], events + [es[0]];
      forall i | 0 <= i < |first| ensures StepAt(cfg, more, first, i) {
        assert i < |events| ==> StepAt(cfg, states, events, i);
      }
      longer := ExtendRun(cfg, more, first, es[1..], t);
      assert first + es[1..] == events + es;
    }
  }

  lemma RunFromStart(cfg: Config, events: seq<Event>, t: State) returns (states: seq<State>)
    requires Sound(cfg) && Leads(cfg, INITIAL, events, t)
    ensures IsRun(cfg, states, events) && states[|events|] == t
  {
    states := ExtendRun(cfg, [INITIAL], [], events, t);
    assert [] + events == events;
  }
}
