/**
 The action id is made of the proposer's tenant, the unique key of the case's (packages/governance/service.py:114-130).
 When an administrator proposes for another tenant's case the two differ, and a proposer can be answered with
 the raw integrity error. When exactly that happens, two runs in which it does, and why it does not happen
 while every proposer acts for its own tenant.
 */
module CrossTenant {
  import opened Model
  import opened Transactions
  import opened Protocol
  import opened Invariant
  import opened StepProofs
  import opened Runs
  import opened Store
  import opened Governance

  // ---------------------------------------------------------------- when a proposal ends in the integrity error

  // In a reachable state a commit under a fresh message id is refused for its id or for its key.
  lemma RefusedExactlyWhen(db: Database, action: Action, mid: Uuid)
    requires LinksOk(db.actions, db.messages) && mid !in db.messages
    ensures Violates(db, action, mid) <==> action.id in db.actions || FindByKey(db, action.tenant, action.key).Some?
  {
    forall k | k in db.messages ensures db.messages[k].aggregateId in db.actions {
      assert LinkOk(db.actions, db.messages[k]);
    }
  }

  // The same, after a rival proposal was committed under another message id.
  lemma RefusedAfterRivalExactlyWhen(db: Database, rival: Rival, action: Action, mid: Uuid, now: Time)
    requires LinksOk(db.actions, db.messages) && mid !in db.messages && (rival.Rival? ==> rival.mid != mid)
    ensures var current := AfterRival(db, rival, now);
            Violates(current, action, mid)
            <==> action.id in current.actions || FindByKey(current, action.tenant, action.key).Some?
  {
    var current := AfterRival(db, rival, now);
    forall k | k in current.messages ensures current.messages[k].aggregateId in current.actions {
      assert k in db.messages ==> LinkOk(db.actions, db.messages[k]);
    }
  }

  // A permitted proposal fails with the integrity error exactly when the case's tenant has not used the key, while
  // some action, for whichever tenant's case, holds the id made of the proposer's tenant and that key.
  lemma ProposalFailsExactlyWhen(cfg: Config, states: seq<State>, events: seq<Event>, n: nat, p: Proposal, mid: Uuid,
                                 now: Time, rival: Rival)
    requires IsRun(cfg, states, events) && n < |states|
    requires mid !in states[n].db.messages && (rival.Rival? ==> rival.mid != mid)
    ensures var db := states[n].db;
            var current := AfterRival(db, rival, now);
            ProposalResult(db, p, mid, now, rival).0 == Failure(IntegrityFailure)
            <==> && p.principal.HasRole(Analyst) && p.principal.MayAccess(p.caseTenant) && p.reviewCaseId == p.caseId
                 && FindByKey(db, p.caseTenant, p.key).None? && FindByKey(current, p.caseTenant, p.key).None?
                 && ActionId(p.principal.tenant, p.key) in current.actions
  {
    ReachableInv(cfg, states, events, n);
    RefusedAfterRivalExactlyWhen(states[n].db, rival, ProposedAction(p, now), mid, now);
  }

  // With any steps of others between the commit and the second look: a proposal is refused and then not answered
  // exactly when its id was taken at the commit and its tenant has not used the key by the second look.
  lemma RefusedProposalFailsExactlyWhen(cfg: Config, states: seq<State>, events: seq<Event>, m: nat, n: nat,
                                        action: Action, mid: Uuid)
    requires IsRun(cfg, states, events) && m <= n < |states| && mid !in states[m].db.messages
    ensures Violates(states[m].db, action, mid)
            && ReconsideredProposal(states[n].db, action).answer == Failure(IntegrityFailure)
            <==> action.id in states[m].db.actions && FindByKey(states[n].db, action.tenant, action.key).None?
  {
    ReachableInv(cfg, states, events, m);
    RunEvolves(cfg, states, events, m, n);
    var before, after := states[m].db, states[n].db;
    RefusedExactlyWhen(before, action, mid);
    var found := FindByKey(before, action.tenant, action.key);
    if found.Some? {
      var i :| i in before.actions && before.actions[i] == found.value;
      assert Past(before.actions[i], after.actions[i]);
    }
  }

  // ---------------------------------------------------------------- own-tenant proposers

  predicate OwnRequest(actions: map<ActionId, Action>, request: Request) {
    match request
    case ProposalReady(a) => OwnTenant(a)
    case ProposalRefused(a) => OwnTenant(a) && a.id in actions
    case Returned(answer) => answer != Failure(IntegrityFailure)
    case _ => true
  }

  predicate OwnTenants(s: State) {
    var own :=
      && (forall i {:trigger OwnTenant(s.db.actions[i])} | i in s.db.actions :: OwnTenant(s.db.actions[i]))
      && (forall r {:trigger OwnRequest(s.db.actions, s.requests[r])} | r in s.requests ::
            OwnRequest(s.db.actions, s.requests[r]));
    own
  }

  predicate OwnProposals(events: seq<Event>) {
    forall k | 0 <= k < |events| && events[k].BeginProposal? ::
      events[k].proposal.principal.tenant == events[k].proposal.caseTenant
  }

  // Request `q` is as it was, or in order.
  predicate Moved(s: State, t: State, q: nat) {
    q in t.requests ==> (q in s.requests && t.requests[q] == s.requests[q]) || OwnRequest(t.db.actions, t.requests[q])
  }

  lemma OwnTenantsStay(s: State, t: State)
    requires OwnTenants(s) && Grows(s.db.actions, t.db.actions)
    requires forall i | i in t.db.actions && i !in s.db.actions :: OwnTenant(t.db.actions[i])
    requires forall q {:trigger Moved(s, t, q)} | q in t.requests :: Moved(s, t, q)
    ensures OwnTenants(t)
  {
    forall i | i in t.db.actions ensures OwnTenant(t.db.actions[i]) {
      if i in s.db.actions {
        assert OwnTenant(s.db.actions[i]) && Past(s.db.actions[i], t.db.actions[i]);
      }
    }
    forall q | q in t.requests ensures OwnRequest(t.db.actions, t.requests[q]) {
      assert Moved(s, t, q);
      assert q in s.requests ==> OwnRequest(s.db.actions, s.requests[q]);
    }
  }

  lemma OwnCommit(cfg: Config, s: State, r: nat, mid: Uuid, now: Time)
    requires Sound(cfg) && Enabled(cfg, s, CommitProposal(r, mid, now)) && OwnTenants(s)
    requires Inv(cfg, s)
    ensures OwnTenants(AfterCommitProposal(s, r, mid, now))
  {
    var action, t := s.requests[r].action, AfterCommitProposal(s, r, mid, now);
    assert OwnRequest(s.db.actions, s.requests[r]);
    RefusedExactlyWhen(s.db, action, mid);
    if FindByKey(s.db, action.tenant, action.key).Some? {
      var i :| i in s.db.actions && s.db.actions[i] == FindByKey(s.db, action.tenant, action.key).value;
      assert OwnTenant(s.db.actions[i]) && s.db.actions[i].id == i;
    }
    CommitProposalEvolves(cfg, s, r, mid, now);
    OwnTenantsStay(s, t);
  }

  lemma OwnReconsider(cfg: Config, s: State, r: nat)
    requires Enabled(cfg, s, ReconsiderProposal(r)) && OwnTenants(s)
    requires Inv(cfg, s)
    ensures OwnTenants(WithRequest(s, r, ReconsideredProposal(s.db, s.requests[r].action)))
  {
    var action := s.requests[r].action;
    var t := WithRequest(s, r, ReconsideredProposal(s.db, action));
    assert OwnRequest(s.db.actions, s.requests[r]);
    assert OwnTenant(s.db.actions[action.id]) && s.db.actions[action.id].id == action.id;
    StayingEvolves(s, t);
    OwnTenantsStay(s, t);
  }

  predicate Begins(e: Event) {
    e.BeginProposal? || e.BeginDecision? || e.BeginExecution? || e.CrashRequest?
  }

  predicate Goes(e: Event) {
    e.CommitDecision? || e.CallSupplier? || e.CommitExecution? || e.ReconsiderExecution?
  }

  // No other step leads a request to a proposal or to the integrity error.
  lemma BeginsMoveRequests(cfg: Config, s: State, e: Event, q: nat)
    requires Begins(e) && Enabled(cfg, s, e)
    requires e.BeginProposal? ==> e.proposal.principal.tenant == e.proposal.caseTenant
    ensures Moved(s, Next(cfg, s, e), q)
  {
  }

  lemma DecisionMoves(s: State, r: nat, q: nat)
    requires r in s.requests && s.requests[r].DecisionReady?
    ensures Moved(s, AfterCommitDecision(s, r), q)
  {
  }

  lemma ExecutionMoves(s: State, r: nat, q: nat)
    requires r in s.requests && s.requests[r].ExecutionReady?
    ensures Moved(s, AfterCommitExecution(s, r), q)
  {
  }

  lemma CallsMoveRequests(cfg: Config, s: State, e: Event, q: nat)
    requires Goes(e) && Enabled(cfg, s, e)
    ensures Moved(s, Next(cfg, s, e), q)
  {
    if e.CommitDecision? {
      DecisionMoves(s, e.r, q);
    } else if e.CommitExecution? {
      ExecutionMoves(s, e.r, q);
    }
  }

  lemma OwnStep(cfg: Config, s: State, e: Event)
    requires Sound(cfg) && Enabled(cfg, s, e) && OwnTenants(s)
    requires e.BeginProposal? ==> e.proposal.principal.tenant == e.proposal.caseTenant
    requires Inv(cfg, s)
    ensures OwnTenants(Next(cfg, s, e))
  {
    if e.CommitProposal? {
      OwnCommit(cfg, s, e.r, e.mid, e.now);
    } else if e.ReconsiderProposal? {
      OwnReconsider(cfg, s, e.r);
    } else {
      var t := Next(cfg, s, e);
      StepEvolves(cfg, s, e);
      OthersAddNothing(cfg, s, e);
      forall q | q in t.requests ensures Moved(s, t, q) {
        if Begins(e) {
          BeginsMoveRequests(cfg, s, e, q);
        } else if Goes(e) {
          CallsMoveRequests(cfg, s, e, q);
        } else {
          OthersMoveNoRequest(cfg, s, e);
        }
      }
      OwnTenantsStay(s, t);
    }
  }

  // While every proposer acts for the tenant of the case, no interleaving and no crash answers any request with
  // the integrity error, and every action's id is the one of its own tenant and key.
  lemma {:induction false} OwnTenantProposersNeverFail(cfg: Config, states: seq<State>, events: seq<Event>, n: nat)
    requires IsRun(cfg, states, events) && n < |states| && OwnProposals(events)
    ensures OwnTenants(states[n])
    ensures forall r | r in states[n].requests :: states[n].requests[r] != Returned(Failure(IntegrityFailure))
    decreases n
  {
    if n > 0 {
      OwnTenantProposersNeverFail(cfg, states, events, n - 1);
      ReachableInv(cfg, states, events, n - 1);
      assert StepAt(cfg, states, events, n - 1);
      OwnStep(cfg, states[n - 1], events[n - 1]);
    }
    forall r | r in states[n].requests ensures states[n].requests[r] != Returned(Failure(IntegrityFailure)) {
      assert OwnRequest(states[n].db.actions, states[n].requests[r]);
    }
  }

  // ---------------------------------------------------------------- two runs that fail

  const KEY: Uuid := 7
  const NORTHS := ActionId("north", KEY)
  const ROOT := Principal("root", "north", {Admin})
  const ANN := Principal("ann", "north", {Analyst})
  const SAM := Principal("sam", "south", {Analyst})

  // A proposal about the one case of a tenant.
  function Asking(principal: Principal, tenant: Tenant): Proposal {
    var caseId := if tenant == "north" then 1 else 2;
    Proposal(principal, caseId, tenant, caseId, caseId, Decision.Approve, "", [], KEY)
  }

  // The first proposal is stored.
  lemma FirstProposal(cfg: Config, p: Proposal) returns (es: seq<Event>, t: State)
    requires p == Asking(ROOT, "south") || p == Asking(ANN, "north")
    ensures Leads(cfg, INITIAL, es, t) && t.requests == map[0 := Returned(Stored(ProposedAction(p, 0)))]
    ensures t.db == InsertProposal(INITIAL.db, ProposedAction(p, 0), 0, 0)
    ensures t.db.actions == map[NORTHS := NewRow(ProposedAction(p, 0))] && t.db.messages.Keys == {0}
  {
    es, t := ProposalIsRun(cfg, INITIAL, 0, p, 0, 0);
  }

  // A proposal the next request makes, where only northern ids are taken and its tenant has not used the key.
  lemma SecondFails(cfg: Config, s: State, p: Proposal) returns (es: seq<Event>, t: State)
    requires 1 !in s.requests && s.db.messages.Keys == {0} && s.db.actions.Keys == {NORTHS}
    requires p.principal == ROOT || p.principal == ANN
    requires p.principal.MayAccess(p.caseTenant) && p.reviewCaseId == p.caseId && p.key == KEY
    requires s.db.actions[NORTHS].tenant != p.caseTenant
    ensures Leads(cfg, s, es, t) && t == WithRequest(s, 1, Returned(Failure(IntegrityFailure)))
  {
    es, t := ProposalIsRun(cfg, s, 1, p, 1, 0);
  }

  // An administrator of the north proposes for a case of the south; then an analyst of the north, acting for its
  // own tenant under a key that tenant never used, is answered with the integrity error.
  lemma OwnTenantProposerIsRefused(cfg: Config) returns (states: seq<State>, events: seq<Event>)
    requires Sound(cfg)
    ensures IsRun(cfg, states, events)
    ensures var last := states[|events|];
            && 1 in last.requests && last.requests[1] == Returned(Failure(IntegrityFailure))
            && FindByKey(last.db, "north", KEY).None? && ANN.tenant == "north" && Admin !in ANN.roles
  {
    var a, s := FirstProposal(cfg, Asking(ROOT, "south"));
    var b, t := SecondFails(cfg, s, Asking(ANN, "north"));
    LeadsOn(cfg, INITIAL, a, s, b, t);
    events := a + b;
    states := RunFromStart(cfg, events, t);
  }

  // The other way round the administrator is refused; once the south has used the key itself, the same
  // proposal is answered with the action of the south.
  lemma AdministratorIsRefusedThenAnswered(cfg: Config) returns (states: seq<State>, events: seq<Event>)
    requires Sound(cfg)
    ensures IsRun(cfg, states, events)
    ensures var last := states[|events|];
            && 1 in last.requests && last.requests[1] == Returned(Failure(IntegrityFailure))
            && 3 in last.requests && last.requests[3]
               == Returned(Stored(NewRow(ProposedAction(Asking(SAM, "south"), 0))))
  {
    var a, s := FirstProposal(cfg, Asking(ANN, "north"));
    var b, t := SecondFails(cfg, s, Asking(ROOT, "south"));
    LeadsOn(cfg, INITIAL, a, s, b, t);
    var c, u := ThirdIsAnswered(cfg, t);
    LeadsOn(cfg, INITIAL, a + b, t, c, u);
    events := a + b + c;
    states := RunFromStart(cfg, events, u);
  }

  lemma ThirdIsAnswered(cfg: Config, s: State) returns (es: seq<Event>, t: State)
    requires s.requests.Keys == {0, 1}
             && s.db == InsertProposal(INITIAL.db, ProposedAction(Asking(ANN, "north"), 0), 0, 0)
    ensures Leads(cfg, s, es, t) && 1 in t.requests && t.requests[1] == s.requests[1]
    ensures 3 in t.requests && t.requests[3] == Returned(Stored(NewRow(ProposedAction(Asking(SAM, "south"), 0))))
  {
    var a, u := SouthIsStored(cfg, s);
    var b, v := RetryIsAnswered(cfg, u, ProposedAction(Asking(SAM, "south"), 0));
    LeadsOn(cfg, s, a, u, b, v);
    es, t := a + b, v;
  }

  lemma SouthIsStored(cfg: Config, s: State) returns (es: seq<Event>, t: State)
    requires s.requests.Keys == {0, 1}
             && s.db == InsertProposal(INITIAL.db, ProposedAction(Asking(ANN, "north"), 0), 0, 0)
    ensures var own := ProposedAction(Asking(SAM, "south"), 0);
            && Leads(cfg, s, es, t) && t.requests.Keys == {0, 1, 2} && t.requests[1] == s.requests[1]
            && t.db.messages.Keys == {0, 1}
            && t.db.actions == map[NORTHS := NewRow(ProposedAction(Asking(ANN, "north"), 0)), own.id := NewRow(own)]
  {
    es, t := ProposalIsRun(cfg, s, 2, Asking(SAM, "south"), 1, 0);
  }

  lemma RetryIsAnswered(cfg: Config, s: State, own: Action) returns (es: seq<Event>, t: State)
    requires own == ProposedAction(Asking(SAM, "south"), 0) && 3 !in s.requests && 2 !in s.db.messages
    requires s.db.actions == map[NORTHS := NewRow(ProposedAction(Asking(ANN, "north"), 0)), own.id := NewRow(own)]
    ensures Leads(cfg, s, es, t) && t == WithRequest(s, 3, Returned(Stored(NewRow(own))))
  {
    var found := FindByKey(s.db, "south", KEY);
    assert s.db.actions[own.id].tenant == "south" && s.db.actions[own.id].key == KEY;
    assert s.db.actions[NORTHS].tenant == "north";
    assert found == Some(NewRow(own));
    es, t := ProposalIsRun(cfg, s, 3, Asking(ROOT, "south"), 2, 0);
  }
}
