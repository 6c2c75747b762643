/**
 The checkpointed review graph and its workflow object (packages/graphs/supplier_review.py): three
 specialists in parallel, a join, an optional pause for the analyst, then synthesis or cancellation.
 */
module ReviewGraph {
  import opened Model

  datatype Specialist = Security | Legal | Financial
  datatype Finding = Finding(specialist: Specialist, text: string)

  // uuid5 of tenant, case and idempotency key, taken as injective.
  datatype ExecutionId = ExecutionId(tenant: Tenant, caseId: Uuid, key: Uuid)

  // The node or nodes to run next. `Waiting` is the interrupt of the confirmation node.
  datatype Position = Reviewing | Confirming | Waiting | Synthesizing | Ended

  datatype Checkpoint = Checkpoint(
    tenant: Tenant, caseId: Uuid, execution: ExecutionId, gated: bool,
    reports: map<Specialist, seq<Finding>>, findings: seq<Finding>, confirmation: Option<bool>,
    cancelled: bool, recommendation: Option<Decision>, completed: bool, position: Position)

  datatype ExecutionStatus = Running | AwaitingInput | Completed | Cancelled
  datatype ReviewResult = ReviewResult(review: ExecutionId, caseId: Uuid, findings: seq<Finding>, decision: Decision)
  datatype ReviewExecution = ReviewExecution(id: ExecutionId, caseId: Uuid, status: ExecutionStatus,
      result: Option<ReviewResult>)

  datatype WorkflowError = ExecutionNotFound | NotAwaiting | Crashed

  // What the models answer in one call, and where the call breaks: before anything is saved, at a node, or
  // when the state is read back at the end.
  datatype Fate = Fate(
    lost: bool, reports: map<Specialist, seq<Finding>>, raises: set<Position>, decision: Decision, unread: bool)

  // No node raises.
  predicate Quiet(fate: Fate) {
    AllReported(fate.reports) && fate.raises == {}
  }

  predicate Calm(fate: Fate) {
    !fate.lost && Quiet(fate) && !fate.unread
  }

  // ---------------------------------------------------------------- the graph

  predicate AllReported(reports: map<Specialist, seq<Finding>>) {
    Security in reports && Legal in reports && Financial in reports
  }

  // The join, in the scheduler's fixed order.
  function Joined(reports: map<Specialist, seq<Finding>>): seq<Finding>
    requires AllReported(reports)
  {
    reports[Financial] + reports[Legal] + reports[Security]
  }

  function Rank(p: Position): nat {
    match p
    case Reviewing => 4
    case Confirming => 3
    case Waiting => 2
    case Synthesizing => 1
    case Ended => 0
  }

  // Run nodes until the graph pauses, ends or a node raises; the flag says that nothing raised.
  function Invoke(c: Checkpoint, answer: Option<bool>, fate: Fate): (Checkpoint, bool)
    decreases Rank(c.position)
  {
    if c.position in fate.raises && c.position != Ended then (c, false)
    else
      match c.position
      case Reviewing =>
        var reported := c.(reports := fate.reports);
        if AllReported(fate.reports) then
          Invoke(reported.(findings := Joined(fate.reports), position := Confirming), answer, fate)
        else (reported, false)
      case Confirming =>
        if c.gated then (c.(position := Waiting), true) else Invoke(c.(position := Synthesizing), answer, fate)
      case Waiting =>
        (match answer
         case None => (c, true)
         case Some(confirmed) =>
           var decided := c.(confirmation := answer, cancelled := !confirmed, completed := !confirmed);
           if confirmed then Invoke(decided.(position := Synthesizing), None, fate)
             else (decided.(position := Ended), true))
      case Synthesizing => (c.(recommendation := Some(fate.decision), completed := true, position := Ended), true)
      case Ended => (c, true)
  }

  function StatusOf(c: Checkpoint): ExecutionStatus {
    if c.cancelled then Cancelled
    else if c.recommendation.Some? then Completed
    else if c.position.Waiting? then AwaitingInput
    else Running
  }

  function ExecutionOf(c: Checkpoint): (e: ReviewExecution)
    ensures e.result.Some? <==> e.status == Completed
  {
    var result := if StatusOf(c) == Completed
      then Some(ReviewResult(c.execution, c.caseId, c.findings, c.recommendation.value)) else None;
    ReviewExecution(c.execution, c.caseId, StatusOf(c), result)
  }

  function NewCheckpoint(id: ExecutionId, gated: bool): Checkpoint {
    Checkpoint(id.tenant, id.caseId, id, gated, map[], [], None, false, None, false, Reviewing)
  }

  // A checkpoint the graph can leave behind: an end is either a cancellation the analyst asked for or a
  // recommendation the analyst did not stand in the way of.
  predicate ShapeOk(c: Checkpoint) {
    var ends :=
      && (c.position.Ended? <==> c.cancelled || c.recommendation.Some?) && (c.completed <==> c.position.Ended?)
      && (c.cancelled <==> c.confirmation == Some(false)) && (c.cancelled ==> c.recommendation.None?);
    var shaped :=
      && ends
      && (c.position.Waiting? ==> c.gated)
      && (c.confirmation.Some? <==> c.gated && Rank(c.position) < Rank(Waiting));
    shaped
  }

  // And the findings are all three reports, or none yet.
  predicate GraphOk(c: Checkpoint) {
    && ShapeOk(c)
    && (if c.position.Reviewing? then c.findings == [] else AllReported(c.reports) && c.findings == Joined(c.reports))
  }

  lemma {:induction false} InvokeKeepsGraphOk(c: Checkpoint, answer: Option<bool>, fate: Fate)
    requires GraphOk(c)
    ensures GraphOk(Invoke(c, answer, fate).0)
    decreases Rank(c.position)
  {
    if c.position !in fate.raises {
      match c.position
      case Reviewing =>
        if AllReported(fate.reports) {
          InvokeKeepsGraphOk(c.(reports := fate.reports, findings := Joined(fate.reports), position := Confirming),
              answer, fate);
        }
      case Confirming =>
        if !c.gated {
          InvokeKeepsGraphOk(c.(position := Synthesizing), answer, fate);
        }
      case Waiting =>
        if answer == Some(true) {
          InvokeKeepsGraphOk(c.(confirmation := answer, cancelled := false, completed := false,
                position := Synthesizing), None, fate);
        }
      case Synthesizing =>
      case Ended =>
    }
  }

  // A first run that returns pauses exactly when gated; a resumed run that returns ended as the analyst decided.
  lemma {:induction false} InvokeEndsWhere(c: Checkpoint, answer: Option<bool>, fate: Fate)
    requires ShapeOk(c)
    ensures var (after, ok) := Invoke(c, answer, fate);
            && after.tenant == c.tenant && after.caseId == c.caseId && after.execution == c.execution
               && after.gated == c.gated
            && (Rank(c.position) > Rank(Waiting) && answer.None? ==>
                  && StatusOf(after) != Cancelled
                  && (ok ==> StatusOf(after) == if c.gated then AwaitingInput else Completed))
            && (c.position.Waiting? && answer.Some? ==>
                  && (ok ==> StatusOf(after) == if answer.value then Completed else Cancelled)
                  && (StatusOf(after) == Completed ==> answer == Some(true))
                  && (StatusOf(after) == Cancelled ==> answer == Some(false)))
            && (c.position.Synthesizing? ==>
                  && StatusOf(after) != Cancelled && StatusOf(after) != AwaitingInput
                  && (ok ==> StatusOf(after) == Completed))
            && (Quiet(fate) ==> ok)
    decreases Rank(c.position)
  {
    if c.position !in fate.raises {
      match c.position
      case Reviewing =>
        if AllReported(fate.reports) {
          InvokeEndsWhere(c.(reports := fate.reports, findings := Joined(fate.reports), position := Confirming),
              answer, fate);
        }
      case Confirming =>
        if !c.gated {
          InvokeEndsWhere(c.(position := Synthesizing), answer, fate);
        }
      case Waiting =>
        if answer == Some(true) {
          InvokeEndsWhere(c.(confirmation := answer, cancelled := false, completed := false, position := Synthesizing),
              None, fate);
        }
      case Synthesizing =>
      case Ended =>
    }
  }

  // ---------------------------------------------------------------- the workflow object

  predicate InScope(c: Checkpoint, tenant: Tenant, caseId: Uuid, id: ExecutionId) {
    (c.tenant, c.caseId, c.execution) == (tenant, caseId, id)
  }

  function Load(threads: map<ExecutionId, Checkpoint>, tenant: Tenant, caseId: Uuid, id: ExecutionId)
    : Result<ReviewExecution, WorkflowError> {
    if id in threads && InScope(threads[id], tenant, caseId, id) then Ok(ExecutionOf(threads[id]))
      else Err(ExecutionNotFound)
  }

  // The checkpoint after a graph call, and what the caller is told.
  function Called(threads: map<ExecutionId, Checkpoint>, id: ExecutionId, c: Checkpoint, answer: Option<bool>,
                  fate: Fate)
    : (map<ExecutionId, Checkpoint>, Result<ReviewExecution, WorkflowError>)
  {
    var (after, ok) := Invoke(c, answer, fate);
    (threads[id := after], if ok && !fate.unread then Ok(ExecutionOf(after)) else Err(Crashed))
  }

  function StartThread(threads: map<ExecutionId, Checkpoint>, id: ExecutionId, gated: bool, fate: Fate)
    : (map<ExecutionId, Checkpoint>, Result<ReviewExecution, WorkflowError>)
  {
    if id in threads then (threads, Load(threads, id.tenant, id.caseId, id))
    else if fate.lost then (threads, Err(Crashed))
    else Called(threads, id, NewCheckpoint(id, gated), None, fate)
  }

  function ResumeThread(threads: map<ExecutionId, Checkpoint>, tenant: Tenant, caseId: Uuid, id: ExecutionId,
                        answer: bool, fate: Fate)
    : (map<ExecutionId, Checkpoint>, Result<ReviewExecution, WorkflowError>)
  {
    match Load(threads, tenant, caseId, id)
    case Err(e) => (threads, Err(e))
    case Ok(current) =>
      if current.status == Completed || current.status == Cancelled then (threads, Ok(current))
      else if current.status != AwaitingInput then (threads, Err(NotAwaiting))
      else if fate.lost then (threads, Err(Crashed))
      else Called(threads, id, threads[id], Some(answer), fate)
  }

  class SupplierReviewWorkflow {
    var threads: map<ExecutionId, Checkpoint>

    constructor ()
      ensures threads == map[]
    {
      threads := map[];
    }

    method GetExecution(tenant: Tenant, caseId: Uuid, id: ExecutionId)
      returns (r: Result<ReviewExecution, WorkflowError>)
      ensures r == Load(threads, tenant, caseId, id)
    {
      if id !in threads || !InScope(threads[id], tenant, caseId, id) {
        return Err(ExecutionNotFound);
      }
      return Ok(ExecutionOf(threads[id]));
    }

    method RunGraph(id: ExecutionId, c: Checkpoint, answer: Option<bool>, fate: Fate)
      returns (r: Result<ReviewExecution, WorkflowError>)
      modifies this
      ensures (threads, r) == Called(old(threads), id, c, answer, fate)
    {
      var (after, ok) := Invoke(c, answer, fate);
      threads := threads[id := after];
      if !ok || fate.unread {
        return Err(Crashed);
      }
      return Ok(ExecutionOf(after));
    }

    method Start(id: ExecutionId, gated: bool, fate: Fate) returns (r: Result<ReviewExecution, WorkflowError>)
      modifies this
      ensures (threads, r) == StartThread(old(threads), id, gated, fate)
    {
      if id in threads {
        r := GetExecution(id.tenant, id.caseId, id);
        return;
      }
      if fate.lost {
        return Err(Crashed);
      }
      r := RunGraph(id, NewCheckpoint(id, gated), None, fate);
    }

    method Resume(tenant: Tenant, caseId: Uuid, id: ExecutionId, confirmed: bool, fate: Fate)
      returns (r: Result<ReviewExecution, WorkflowError>)
      modifies this
      ensures (threads, r) == ResumeThread(old(threads), tenant, caseId, id, confirmed, fate)
    {
      r := GetExecution(tenant, caseId, id);
      if r.Err? || r.value.status == Completed || r.value.status == Cancelled {
        return;
      }
      if r.value.status != AwaitingInput {
        return Err(NotAwaiting);
      }
      if fate.lost {
        return Err(Crashed);
      }
      r := RunGraph(id, threads[id], Some(confirmed), fate);
    }
  }
}
