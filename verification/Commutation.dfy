/**
 The outbox writes the workflow reference while decisions and executions write the lifecycle columns of the
 same row, both from earlier reads. Column-wise writes make them commute
 (packages/governance/repositories.py, packages/outbox/repositories.py).
 */
module Commutation {
  import opened Model
  import opened Transactions
  import opened Protocol
  import opened Invariant
  import opened StepProofs
  import opened TableProofs
  import opened Runs

  // One committed write: a lifecycle transition, or the acknowledgement of a delivery.
  datatype Write =
    | Transition(action: Action, event: AuditEvent, expected: Status)
    | Acknowledgement(mid: Uuid, worker: WorkerId, reference: string, now: Time)

  // None when the write is refused.
  function Attempt(db: Database, w: Write): Option<Database> {
    match w
    case Transition(action, event, expected) =>
      (match SaveTransition(db, action, event, expected) case Ok(after) => Some(after) case Err(_) => None)
    case Acknowledgement(mid, worker, reference, now) =>
      (match MarkPublished(db, mid, worker, reference, now) case Ok(after) => Some(after) case Err(_) => None)
  }

  predicate Accepted(db: Database, w: Write) {
    Attempt(db, w).Some?
  }

  // A refused write leaves the tables as they are, and the others go on.
  function Apply(db: Database, w: Write): Database {
    Attempt(db, w).GetOr(db)
  }

  function ApplyAll(db: Database, ws: seq<Write>): Database
    decreases |ws|
  {
    if ws == [] then db else ApplyAll(Apply(db, ws[0]), ws[1..])
  }

  // The two writes commute on every database, whether they are accepted or lose their compare-and-set, and
  // neither decides whether the other is accepted.
  lemma WritesCommute(db: Database, t: Write, a: Write)
    requires t.Transition? && a.Acknowledgement?
    ensures Apply(Apply(db, t), a) == Apply(Apply(db, a), t)
    ensures Accepted(Apply(db, t), a) == Accepted(db, a) && Accepted(Apply(db, a), t) == Accepted(db, t)
  {
    if Accepted(db, t) && Accepted(db, a) {
      assert Apply(Apply(db, t), a).actions == Apply(Apply(db, a), t).actions;
    }
  }

  function Transitions(ws: seq<Write>): seq<Write> {
    if ws == [] then [] else (if ws[0].Transition? then [ws[0]] else []) + Transitions(ws[1..])
  }

  function Acknowledgements(ws: seq<Write>): seq<Write> {
    if ws == [] then [] else (if ws[0].Acknowledgement? then [ws[0]] else []) + Acknowledgements(ws[1..])
  }

  lemma {:induction false} TransitionLast(db: Database, t: Write, acks: seq<Write>)
    requires t.Transition? && forall k | 0 <= k < |acks| :: acks[k].Acknowledgement?
    ensures ApplyAll(Apply(db, t), acks) == Apply(ApplyAll(db, acks), t)
    decreases |acks|
  {
    if acks != [] {
      WritesCommute(db, t, acks[0]);
      TransitionLast(Apply(db, acks[0]), t, acks[1..]);
    }
  }

  // Any sequence of writes leaves the tables as its acknowledgements, and then its transitions, would.
  lemma {:induction false} AcknowledgementsFirst(db: Database, ws: seq<Write>)
    ensures forall k | 0 <= k < |Acknowledgements(ws)| :: Acknowledgements(ws)[k].Acknowledgement?
    ensures ApplyAll(db, ws) == ApplyAll(ApplyAll(db, Acknowledgements(ws)), Transitions(ws))
    decreases |ws|
  {
    if ws != [] {
      var w, acks, ts := ws[0], Acknowledgements(ws[1..]), Transitions(ws[1..]);
      AcknowledgementsFirst(Apply(db, w), ws[1..]);
      if w.Transition? {
        TransitionLast(db, w, acks);
        assert ([w] + ts)[0] == w && ([w] + ts)[1..] == ts;
        assert [] + acks == acks;
      } else {
        assert ([w] + acks)[0] == w && ([w] + acks)[1..] == acks;
        assert [] + ts == ts;
      }
    }
  }

  // However lifecycle writes and acknowledgements interleave, from stale reads or not and whichever of them
  // lose, the final tables are the same.
  lemma InterleavingsAgree(db: Database, x: seq<Write>, y: seq<Write>)
    requires Transitions(x) == Transitions(y) && Acknowledgements(x) == Acknowledgements(y)
    ensures ApplyAll(db, x) == ApplyAll(db, y)
  {
    AcknowledgementsFirst(db, x);
    AcknowledgementsFirst(db, y);
  }

  // In every run, a committed execution changes the status, the receipt and its time only: the recorded approver,
  // the comment and any reference written since the request read the row all stay.
  lemma ExecutionLosesNothing(cfg: Config, states: seq<State>, events: seq<Event>, n: nat, r: nat)
    requires IsRun(cfg, states, events) && n < |events| && events[n] == CommitExecution(r)
    requires r in states[n].requests && states[n].requests[r].ExecutionReady?
    ensures var request := states[n].requests[r];
            var i := request.approved.id;
            && i in states[n].db.actions && i in states[n + 1].db.actions
            && var row, row' := states[n].db.actions[i], states[n + 1].db.actions[i];
               row' == if row.status == Status.Approved
                       then row.(status := Status.Executed, receipt := Some(request.receipt),
                           executedAt := Some(request.receipt.executedAt))
                       else row
  {
    ReachableInv(cfg, states, events, n);
    assert StepAt(cfg, states, events, n);
    var s := states[n];
    var request := s.requests[r];
    assert RequestOk(s.db.actions, s.receipts, request);
    if s.db.actions[request.approved.id].status == Status.Approved {
      ExecutionIsLawful(s.db, request.approved, request.receipt, request.actor);
    }
  }

  // A committed decision changes the decision columns only.
  lemma DecisionLosesNothing(cfg: Config, states: seq<State>, events: seq<Event>, n: nat, r: nat)
    requires IsRun(cfg, states, events) && n < |events| && events[n] == CommitDecision(r)
    requires r in states[n].requests && states[n].requests[r].DecisionReady?
    ensures var decided := states[n].requests[r].decided;
            && decided.id in states[n].db.actions && decided.id in states[n + 1].db.actions
            && var row, row' := states[n].db.actions[decided.id], states[n + 1].db.actions[decided.id];
               row'
               == if row.status == PendingApproval
                  then row.(status := decided.status, approver := decided.approver, comment := decided.comment,
                      decidedAt := decided.decidedAt)
                  else row
  {
    ReachableInv(cfg, states, events, n);
    assert StepAt(cfg, states, events, n);
    var s := states[n];
    var decided := s.requests[r].decided;
    assert RequestOk(s.db.actions, s.receipts, s.requests[r]);
    assert ActionOk(s.db.actions[decided.id]);
  }
}
