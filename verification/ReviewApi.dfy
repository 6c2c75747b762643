/**
 The request handlers that start and resume reviews (apps/api/main.py:79-126, 225-392) over the case
 repository (packages/persistence/repositories.py:78-149).
 */
module ReviewApi {
  import opened Model
  import opened ReviewGraph

  datatype CaseStatus = NewCase | InReview | AwaitingApproval | ApprovedCase | RejectedCase | ReviewFailed
  datatype Case = Case(tenant: Tenant, status: CaseStatus)

  datatype EventKind = StartedEvent | FailedEvent | AwaitingEvent | ResumedEvent | CompletedEvent | CancelledEvent
  datatype ReviewEvent = ReviewEvent(kind: EventKind, caseId: Uuid, execution: ExecutionId, actor: Subject)

  const WORKFLOW: Subject := "system:review-workflow"

  datatype System = System(
    cases: map<Uuid, Case>, reviews: map<ExecutionId, ReviewResult>, events: seq<ReviewEvent>,
    threads: map<ExecutionId, Checkpoint>)

  datatype Request =
    | StartReview(caseId: Uuid, principal: Principal, key: Uuid, gated: bool, fate: Fate)
    | ResumeReview(caseId: Uuid, principal: Principal, execution: ExecutionId, confirmed: bool, fate: Fate)

  datatype ApiError = Missing | Forbidden | Conflict | ServerError

  // ---------------------------------------------------------------- what a request does

  function WithStatus(s: System, c: Uuid, status: CaseStatus): System
    requires c in s.cases
  {
    s.(cases := s.cases[c := s.cases[c].(status := status)])
  }

  function Log(s: System, kind: EventKind, c: Uuid, x: ExecutionId, actor: Subject): System {
    s.(events := s.events + [ReviewEvent(kind, c, x, actor)])
  }

  function Denial(s: System, c: Uuid, principal: Principal): Option<ApiError> {
    if c !in s.cases || !principal.MayAccess(s.cases[c].tenant) then Some(Missing)
    else if !principal.HasRole(Analyst) then Some(Forbidden)
    else None
  }

  function Persisted(s: System, c: Uuid, result: ReviewResult): System
    requires c in s.cases
  {
    if result.review in s.reviews then s
    else Log(WithStatus(s.(reviews := s.reviews[result.review := result]), c, AwaitingApproval), CompletedEvent, c,
        result.review, WORKFLOW)
  }

  function CancelledCase(s: System, c: Uuid, x: ExecutionId, actor: Subject): System
    requires c in s.cases
  {
    Log(WithStatus(s, c, NewCase), CancelledEvent, c, x, actor)
  }

  // The case after a start whose execution was created now or found; `before` is the status the request read.
  function StartConcluded(s: System, c: Uuid, x: ExecutionId, actor: Subject, before: CaseStatus, created: bool,
                          execution: ReviewExecution)
    : (after: System)
    requires c in s.cases && (execution.status == Completed ==> execution.result.Some?)
    ensures after.threads == s.threads && c in after.cases && after.cases[c].tenant == s.cases[c].tenant
  {
    match execution.status
    case Completed => Persisted(s, c, execution.result.value)
    case Cancelled => if before.InReview? then CancelledCase(s, c, x, actor) else s
    case AwaitingInput => if created then Log(s, AwaitingEvent, c, x, WORKFLOW) else s
    case Running => s
  }

  function Begun(s: System, c: Uuid, x: ExecutionId): System
    requires c in s.cases
  {
    Log(WithStatus(s, c, InReview), StartedEvent, c, x, WORKFLOW)
  }

  function Created(s: System, c: Uuid, x: ExecutionId, actor: Subject, gated: bool, fate: Fate)
    : (System, Result<ReviewExecution, ApiError>)
    requires c in s.cases
  {
    var (threads, r) := StartThread(s.threads, x, gated, fate);
    var called := Begun(s, c, x).(threads := threads);
    match r
    case Ok(execution) => (StartConcluded(called, c, x, actor, s.cases[c].status, true, execution), Ok(execution))
    case Err(_) => (Log(WithStatus(called, c, ReviewFailed), FailedEvent, c, x, WORKFLOW), Err(ServerError))
  }

  function Started(s: System, c: Uuid, principal: Principal, key: Uuid, gated: bool, fate: Fate)
    : (System, Result<ReviewExecution, ApiError>) {
    if Denial(s, c, principal).Some? then (s, Err(Denial(s, c, principal).value))
    else
      var x := ExecutionId(s.cases[c].tenant, c, key);
      match Load(s.threads, s.cases[c].tenant, c, x)
      case Ok(execution) => (StartConcluded(s, c, x, principal.subject, s.cases[c].status, false, execution),
          Ok(execution))
      case Err(_) => Created(s, c, x, principal.subject, gated, fate)
  }

  function ResumeConcluded(s: System, c: Uuid, x: ExecutionId, actor: Subject, before: CaseStatus, awaited: bool,
                           execution: ReviewExecution)
    : (after: System)
    requires c in s.cases && (execution.status == Completed ==> execution.result.Some?)
    ensures after.threads == s.threads && c in after.cases && after.cases[c].tenant == s.cases[c].tenant
  {
    var resumed := if awaited then Log(s, ResumedEvent, c, x, actor) else s;
    if execution.status == Completed then Persisted(resumed, c, execution.result.value)
    else if execution.status == Cancelled && (awaited || before.InReview?) then CancelledCase(resumed, c, x, actor)
    else resumed
  }

  function Resumed(s: System, c: Uuid, principal: Principal, x: ExecutionId, confirmed: bool, fate: Fate)
    : (System, Result<ReviewExecution, ApiError>) {
    if Denial(s, c, principal).Some? then (s, Err(Denial(s, c, principal).value))
    else
      match Load(s.threads, s.cases[c].tenant, c, x)
      case Err(_) => (s, Err(Missing))
      case Ok(current) =>
        var (threads, r) := ResumeThread(s.threads, s.cases[c].tenant, c, x, confirmed, fate);
        match r
        case Err(e) => (s.(threads := threads),
            Err(if e == NotAwaiting then Conflict else if e == ExecutionNotFound then Missing else ServerError))
        case Ok(execution) =>
          (ResumeConcluded(s.(threads := threads), c, x, principal.subject, s.cases[c].status,
                           current.status == AwaitingInput, execution), Ok(execution))
  }

  function Handle(s: System, request: Request): (System, Result<ReviewExecution, ApiError>) {
    match request
    case StartReview(c, principal, key, gated, fate) => Started(s, c, principal, key, gated, fate)
    case ResumeReview(c, principal, x, confirmed, fate) => Resumed(s, c, principal, x, confirmed, fate)
  }

  // ---------------------------------------------------------------- the objects

  class InMemoryCaseRepository {
    var cases: map<Uuid, Case>
    var reviews: map<ExecutionId, ReviewResult>
    var events: seq<ReviewEvent>

    constructor ()
      ensures cases == map[] && reviews == map[] && events == []
    {
      cases, reviews, events := map[], map[], [];
    }

    method SetStatus(c: Uuid, status: CaseStatus)
      requires c in cases
      modifies this`cases
      ensures cases == old(cases)[c := old(cases)[c].(status := status)]
    {
      cases := cases[c := cases[c].(status := status)];
    }

    method SaveReview(result: ReviewResult)
      modifies this`reviews
      ensures reviews == if result.review in old(reviews) then old(reviews) else old(reviews)[result.review := result]
    {
      if result.review !in reviews {
        reviews := reviews[result.review := result];
      }
    }

    method AppendAuditEvent(kind: EventKind, c: Uuid, x: ExecutionId, actor: Subject)
      modifies this`events
      ensures events == old(events) + [ReviewEvent(kind, c, x, actor)]
    {
      events := events + [ReviewEvent(kind, c, x, actor)];
    }
  }

  class Api {
    const cases: InMemoryCaseRepository
    const workflow: SupplierReviewWorkflow

    constructor (cases: InMemoryCaseRepository, workflow: SupplierReviewWorkflow)
      ensures this.cases == cases && this.workflow == workflow
    {
      this.cases, this.workflow := cases, workflow;
    }

    function View(): System
      reads cases, workflow
    {
      System(cases.cases, cases.reviews, cases.events, workflow.threads)
    }

    method Authorize(c: Uuid, principal: Principal) returns (denial: Option<ApiError>)
      ensures denial == Denial(View(), c, principal)
    {
      if c !in cases.cases || !principal.MayAccess(cases.cases[c].tenant) {
        return Some(Missing);
      }
      return if principal.HasRole(Analyst) then None else Some(Forbidden);
    }

    method PersistCompletedReview(c: Uuid, result: ReviewResult)
      requires c in cases.cases
      modifies cases
      ensures View() == Persisted(old(View()), c, result)
    {
      if result.review in cases.reviews {
        return;
      }
      cases.SaveReview(result);
      cases.SetStatus(c, AwaitingApproval);
      cases.AppendAuditEvent(CompletedEvent, c, result.review, WORKFLOW);
    }

    method Cancel(c: Uuid, x: ExecutionId, actor: Subject)
      requires c in cases.cases
      modifies cases
      ensures View() == CancelledCase(old(View()), c, x, actor)
    {
      cases.SetStatus(c, NewCase);
      cases.AppendAuditEvent(CancelledEvent, c, x, actor);
    }

    method StartReviewExecution(c: Uuid, principal: Principal, key: Uuid, gated: bool, fate: Fate)
      returns (r: Result<ReviewExecution, ApiError>)
      modifies cases, workflow
      ensures (View(), r) == Started(old(View()), c, principal, key, gated, fate)
    {
      var denial := Authorize(c, principal);
      if denial.Some? {
        return Err(denial.value);
      }
      var supplierCase := cases.cases[c];
      var x := ExecutionId(supplierCase.tenant, c, key);
      var created := false;
      var found := workflow.GetExecution(supplierCase.tenant, c, x);
      if found.Err? {
        created := true;
        cases.SetStatus(c, InReview);
        cases.AppendAuditEvent(StartedEvent, c, x, WORKFLOW);
        found := workflow.Start(x, gated, fate);
        if found.Err? {
          cases.SetStatus(c, ReviewFailed);
          cases.AppendAuditEvent(FailedEvent, c, x, WORKFLOW);
          return Err(ServerError);
        }
      }
      var execution := found.value;
      ConcludeStart(c, x, principal.subject, supplierCase.status, created, execution);
      return Ok(execution);
    }

    method ConcludeStart(c: Uuid, x: ExecutionId, actor: Subject, before: CaseStatus, created: bool,
                         execution: ReviewExecution)
      requires c in cases.cases && (execution.status == Completed ==> execution.result.Some?)
      modifies cases
      ensures View() == StartConcluded(old(View()), c, x, actor, before, created, execution)
    {
      if execution.status == Completed {
        PersistCompletedReview(c, execution.result.value);
      } else if execution.status == Cancelled && before == InReview {
        Cancel(c, x, actor);
      } else if created && execution.status == AwaitingInput {
        cases.AppendAuditEvent(AwaitingEvent, c, x, WORKFLOW);
      }
    }

    method ResumeReviewExecution(c: Uuid, principal: Principal, x: ExecutionId, confirmed: bool, fate: Fate)
      returns (r: Result<ReviewExecution, ApiError>)
      modifies cases, workflow
      ensures (View(), r) == Resumed(old(View()), c, principal, x, confirmed, fate)
    {
      var denial := Authorize(c, principal);
      if denial.Some? {
        return Err(denial.value);
      }
      var supplierCase := cases.cases[c];
      var current := workflow.GetExecution(supplierCase.tenant, c, x);
      if current.Err? {
        return Err(Missing);
      }
      var execution := workflow.Resume(supplierCase.tenant, c, x, confirmed, fate);
      if execution.Err? {
        return Err(if execution.error == NotAwaiting then Conflict
            else if execution.error == ExecutionNotFound then Missing else ServerError);
      }
      ConcludeResume(c, x, principal.subject, supplierCase.status,
                     current.value.status == AwaitingInput, execution.value);
      return Ok(execution.value);
    }

    method ConcludeResume(c: Uuid, x: ExecutionId, actor: Subject, before: CaseStatus, awaited: bool,
                          execution: ReviewExecution)
      requires c in cases.cases && (execution.status == Completed ==> execution.result.Some?)
      modifies cases
      ensures View() == ResumeConcluded(old(View()), c, x, actor, before, awaited, execution)
    {
      if awaited {
        cases.AppendAuditEvent(ResumedEvent, c, x, actor);
      }
      if execution.status == Completed {
        PersistCompletedReview(c, execution.result.value);
      } else if execution.status == Cancelled && (awaited || before == InReview) {
        Cancel(c, x, actor);
      }
    }
  }
}
