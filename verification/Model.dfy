/**
 The values the system stores and passes around (packages/schemas, packages/persistence/models.py).
 */
module Model {
  datatype Option<+T> = None | Some(value: T) {
    function GetOr(default: T): T {
      if Some? then value else default
    }
  }

  datatype Result<+T, +E> = Ok(value: T) | Err(error: E)

  // Clock readings and identifiers. Clocks of different processes need not agree.
  type Time = int
  type Duration = nat
  type Uuid = nat
  type Tenant = string
  type Subject = string
  type WorkerId = string

  // uuid5 of "tenant:key" (section 5.5 of RFC 9562), taken as injective.
  datatype ActionId = ActionId(tenant: Tenant, key: Uuid)

  datatype Role = Analyst | Approver | Executor | Admin

  datatype Principal = Principal(subject: Subject, tenant: Tenant, roles: set<Role>) {
    predicate HasRole(role: Role) {
      role in roles || Admin in roles
    }

    predicate MayAccess(owner: Tenant) {
      Admin in roles || tenant == owner
    }
  }

  datatype Status = PendingApproval | Approved | Rejected | Executed | Failed
  datatype Decision = Approve | Remediate | Escalate | Reject

  datatype Arguments = Arguments(
    caseId: Uuid, reviewId: Uuid, decision: Decision, rationale: string, requiredActions: seq<string>)

  datatype Receipt = Receipt(actionId: ActionId, decision: Decision, executedAt: Time)

  datatype Action = Action(
    id: ActionId, caseId: Uuid, reviewId: Uuid, tenant: Tenant, arguments: Arguments,
    status: Status, proposer: Subject, approver: Option<Subject>, comment: string, key: Uuid,
    reference: Option<string>, receipt: Option<Receipt>,
    createdAt: Time, decidedAt: Option<Time>, executedAt: Option<Time>)

  // The proposer acted for the case's own tenant.
  predicate OwnTenant(a: Action) {
    a.id == ActionId(a.tenant, a.key)
  }

  datatype EventType = ApprovalWorkflowStart | OtherEvent(name: string)
  datatype Payload = Payload(actionId: ActionId, caseId: Uuid, tenant: Tenant)

  datatype Message = Message(
    id: Uuid, aggregateId: ActionId, eventType: EventType, payload: Payload,
    attemptCount: nat, availableAt: Time, lockedAt: Option<Time>, lockedBy: Option<WorkerId>,
    publishedAt: Option<Time>, deadLetteredAt: Option<Time>, lastError: Option<string>,
    deliveryResult: Option<string>, createdAt: Time)

  datatype AuditKind = ActionProposed | ActionApproved | ActionRejected | ActionExecuted
  datatype AuditEvent = AuditEvent(kind: AuditKind, actionId: ActionId, caseId: Uuid, actor: Subject)

  // The three tables a governance transaction touches.
  datatype Database = Database(
    actions: map<ActionId, Action>, messages: map<Uuid, Message>, audit: seq<AuditEvent>)
}
