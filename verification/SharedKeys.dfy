/**
 Two tenants may use one idempotency key. The outbox and the unique constraint keep their actions apart, but
 the supplier system does not: a concrete run in which the second tenant's action gets the first one's receipt.
 */
module SharedKeys {
  import opened Model
  import opened Transactions
  import opened Protocol
  import opened Invariant
  import opened Runs
  import opened Governance
  import opened Store

  const KEY: Uuid := 7
  const FIRST := ActionId("north", KEY)
  const SECOND := ActionId("south", KEY)
  const ROOT := Principal("root", "north", {Admin})

  function Request(tenant: Tenant, caseId: Uuid, decision: Model.Decision): Proposal {
    Proposal(Principal("ann", tenant, {Analyst}), caseId, tenant, caseId, caseId, decision, "", [], KEY)
  }

  // A first proposal for its tenant and key is stored.
  lemma FreshProposal(cfg: Config, s: State, r: nat, p: Proposal, mid: Uuid) returns (es: seq<Event>, t: State)
    requires r !in s.requests && mid !in s.db.messages && p.principal.HasRole(Analyst)
             && p.principal.tenant == p.caseTenant && p.reviewCaseId == p.caseId
    requires forall i | i in s.db.actions ::
               i != ActionId(p.caseTenant, p.key) && s.db.actions[i].tenant != p.caseTenant
    requires forall m | m in s.db.messages :: s.db.messages[m].aggregateId in s.db.actions
    ensures var action := ProposedAction(p, 0);
            Leads(cfg, s, es, t) && Answers(s, r, Stored(action), InsertProposal(s.db, action, mid, 0), s.receipts, t)
  {
    es, t := ProposalIsRun(cfg, s, r, p, mid, 0);
    assert !Violates(s.db, ProposedAction(p, 0), mid);
  }

  function Approved(p: Proposal): Action {
    Decided(NewRow(ProposedAction(p, 0)), true, ROOT.subject, "", 0)
  }

  const P := Request("north", 1, Model.Decision.Approve)
  const Q := Request("south", 2, Model.Decision.Reject)

  lemma BothProposed(cfg: Config) returns (es: seq<Event>, t: State)
    ensures Leads(cfg, INITIAL, es, t) && t.receipts == map[] && t.requests.Keys == {0, 1}
    ensures t.db.actions == map[FIRST := NewRow(ProposedAction(P, 0)), SECOND := NewRow(ProposedAction(Q, 0))]
  {
    var a, s := FreshProposal(cfg, INITIAL, 0, P, 0);
    var b, u := FreshProposal(cfg, s, 1, Q, 1);
    LeadsOn(cfg, INITIAL, a, s, b, u);
    es, t := a + b, u;
  }

  lemma BothApproved(cfg: Config) returns (es: seq<Event>, t: State)
    ensures Leads(cfg, INITIAL, es, t) && t.receipts == map[] && t.requests.Keys == {0, 1, 2, 3}
    ensures t.db.actions == map[FIRST := Approved(P), SECOND := Approved(Q)]
  {
    var a, s := BothProposed(cfg);
    var b, u := DecisionIsRun(cfg, s, 2, FIRST, ROOT, true, "", 0);
    LeadsOn(cfg, INITIAL, a, s, b, u);
    var c, v := DecisionIsRun(cfg, u, 3, SECOND, ROOT, true, "", 0);
    LeadsOn(cfg, INITIAL, a + b, u, c, v);
    es, t := a + b + c, v;
  }

  lemma FirstExecuted(cfg: Config) returns (es: seq<Event>, t: State)
    ensures Leads(cfg, INITIAL, es, t) && t.requests.Keys == {0, 1, 2, 3, 4}
    ensures t.receipts == map[KEY := NewReceipt(Approved(P), 0)]
    ensures SECOND in t.db.actions && t.db.actions[SECOND] == Approved(Q)
  {
    var a, s := BothApproved(cfg);
    var b, u := ExecutionIsRun(cfg, s, 4, FIRST, ROOT, 0);
    LeadsOn(cfg, INITIAL, a, s, b, u);
    es, t := a + b, u;
  }

  // Both tenants propose, an administrator approves and executes both: `execute` of the second tenant's action
  // answers with the receipt of the first one's, for another decision, and stores it.
  lemma SecondTenantGetsFirstReceipt(cfg: Config) returns (states: seq<State>, events: seq<Event>)
    requires Sound(cfg)
    ensures IsRun(cfg, states, events) && FIRST != SECOND
    ensures var last := states[|events|];
            && 5 in last.requests && last.requests[5] == Returned(Receipted(SECOND, NewReceipt(Approved(P), 0)))
            && SECOND in last.db.actions && last.db.actions[SECOND].status == Status.Executed
            && NewReceipt(Approved(P), 0).actionId == FIRST
            && NewReceipt(Approved(P), 0).decision != last.db.actions[SECOND].arguments.decision
  {
    var a, s := FirstExecuted(cfg);
    var b, t := ExecutionIsRun(cfg, s, 5, SECOND, ROOT, 0);
    LeadsOn(cfg, INITIAL, a, s, b, t);
    events := a + b;
    states := RunFromStart(cfg, events, t);
  }
}
