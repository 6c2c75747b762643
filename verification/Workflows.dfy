/**
 What the approval workflow is started with, what it reports, and what each step writes into a message row, on the
 columns (packages/workflows/approvals.py, infra/iac/lib/production-stack.ts, packages/outbox/repositories.py).
 */
module Workflows {
  import opened Model
  import opened Transactions
  import opened Approvals
  import opened Protocol
  import opened Invariant
  import opened StepProofs
  import opened Runs
  import opened Leases

  // ---------------------------------------------------------------- starts

  // The input is the action's own, with a status the action had.
  predicate StartedFor(cfg: Config, actions: map<ActionId, Action>, name: string, input: StartInput) {
    && input.actionId in actions && name == "supplier-action-" + cfg.hex(input.actionId)
    && input.caseId == actions[input.actionId].caseId && input.tenant == actions[input.actionId].tenant
    && Reaches(input.status, actions[input.actionId].status)
  }

  predicate AllStarted(cfg: Config, s: State) {
    forall name {:trigger StartedFor(cfg, s.db.actions, name, s.executions[name].input)} | name in s.executions ::
      StartedFor(cfg, s.db.actions, name, s.executions[name].input)
  }

  predicate TouchesExecutions(e: Event) {
    e.StartWorkflow? || e.Poll? || e.Expire?
  }

  lemma OthersStartNothing(cfg: Config, s: State, e: Event)
    requires Enabled(cfg, s, e) && !TouchesExecutions(e)
    ensures Next(cfg, s, e).executions == s.executions
  {
    if Writes(e) {
      WritesSpareServices(cfg, s, e);
    }
  }

  lemma StartedForLasts(cfg: Config, before: map<ActionId, Action>, after: map<ActionId, Action>, name: string,
                        input: StartInput)
    requires StartedFor(cfg, before, name, input) && Grows(before, after)
    ensures StartedFor(cfg, after, name, input)
  {
    assert Past(before[input.actionId], after[input.actionId]);
  }

  // An execution there is after a step was there before, with the same input, or was started by it for the stored
  // action of its message.
  lemma ExecutionMoves(cfg: Config, s: State, e: Event, name: string)
    requires Enabled(cfg, s, e) && name in Next(cfg, s, e).executions
    ensures var t := Next(cfg, s, e);
            || (name in s.executions && t.executions[name].input == s.executions[name].input)
            || (&& e.StartWorkflow? && name !in s.executions
                && var a := s.workers[e.w].phase.action;
                   && name == "supplier-action-" + cfg.hex(a.id) && t.executions[name].outcome == Running
                   && t.executions[name].input == StartInput(a.id, a.caseId, a.tenant, a.status))
  {
    if !TouchesExecutions(e) {
      OthersStartNothing(cfg, s, e);
    }
  }

  lemma StepStarts(cfg: Config, s: State, e: Event)
    requires Sound(cfg) && Enabled(cfg, s, e) && AllStarted(cfg, s)
    requires Inv(cfg, s)
    ensures AllStarted(cfg, Next(cfg, s, e))
  {
    var t := Next(cfg, s, e);
    StepEvolves(cfg, s, e);
    forall name | name in t.executions ensures StartedFor(cfg, t.db.actions, name, t.executions[name].input) {
      ExecutionMoves(cfg, s, e, name);
      if name in s.executions && t.executions[name].input == s.executions[name].input {
        assert StartedFor(cfg, s.db.actions, name, s.executions[name].input);
      } else {
        assert DispatchOk(cfg, s.db, s.executions, e.w, s.workers[e.w]);
      }
      StartedForLasts(cfg, s.db.actions, t.db.actions, name, t.executions[name].input);
    }
  }

  // Every execution has the name and the input of its action: its id, case and tenant, and a status it went through.
  lemma {:induction false} InputsAreTheActions(cfg: Config, states: seq<State>, events: seq<Event>, n: nat)
    requires IsRun(cfg, states, events) && n < |states|
    ensures AllStarted(cfg, states[n])
    decreases n
  {
    if n > 0 {
      InputsAreTheActions(cfg, states, events, n - 1);
      ReachableInv(cfg, states, events, n - 1);
      assert StepAt(cfg, states, events, n - 1);
      StepStarts(cfg, states[n - 1], events[n - 1]);
    }
  }

  // ---------------------------------------------------------------- polling

  // A poll reports the committed status: a pending action keeps the workflow waiting, an approved or executed one
  // ends it in success, a rejected one in rejection.
  lemma PollReports(cfg: Config, states: seq<State>, events: seq<Event>, n: nat)
    requires IsRun(cfg, states, events) && n < |events| && events[n].Poll?
    ensures var name, s, t := events[n].name, states[n], states[n + 1];
            && name in s.executions && name in t.executions && t.executions[name].input == s.executions[name].input
            && s.executions[name].input.actionId in s.db.actions
            && var status, outcome :=
                 s.db.actions[s.executions[name].input.actionId].status, t.executions[name].outcome;
               && (outcome == Running <==> status == PendingApproval)
               && (outcome == Succeeded <==> status == Status.Approved || status == Status.Executed)
               && (outcome == RejectedOutcome <==> status == Status.Rejected)
  {
    assert StepAt(cfg, states, events, n);
    ReachableInv(cfg, states, events, n);
    assert ActionOk(states[n].db.actions[states[n].executions[events[n].name].input.actionId]);
  }

  lemma OutcomeMoves(cfg: Config, s: State, e: Event, name: string)
    requires Enabled(cfg, s, e) && name in Next(cfg, s, e).executions
    requires Next(cfg, s, e).executions[name].outcome == TimedOut
    ensures e == Expire(name) || (name in s.executions && s.executions[name].outcome == TimedOut)
  {
    if !TouchesExecutions(e) {
      OthersStartNothing(cfg, s, e);
    }
  }

  // Only the service's own time limit times a workflow out.
  lemma {:induction false} TimeoutsExpire(cfg: Config, states: seq<State>, events: seq<Event>, n: nat, name: string)
    returns (k: nat)
    requires IsRun(cfg, states, events) && n < |states|
    requires name in states[n].executions && states[n].executions[name].outcome == TimedOut
    ensures k < n && events[k] == Expire(name)
    decreases n
  {
    assert n > 0;
    assert StepAt(cfg, states, events, n - 1);
    OutcomeMoves(cfg, states[n - 1], events[n - 1], name);
    if events[n - 1] == Expire(name) {
      k := n - 1;
    } else {
      k := TimeoutsExpire(cfg, states, events, n - 1, name);
    }
  }

  // ---------------------------------------------------------------- rows

  // What a failure leaves of an error's name: its first 255 characters.
  predicate Shortens(short: string, name: string) {
    short <= name && |short| == if |name| <= 255 then |name| else 255
  }

  // Column by column, what an event writes into a message row.
  lemma RowColumns(cfg: Config, states: seq<State>, events: seq<Event>, n: nat, m: Uuid)
    requires IsRun(cfg, states, events) && n < |events| && m in states[n].db.messages
    ensures m in states[n + 1].db.messages
    ensures var e, row, row' := events[n], states[n].db.messages[m], states[n + 1].db.messages[m];
            if Claims(e, m) then row' == row.(lockedAt := Some(e.now), lockedBy := Some(e.w))
            else if Fails(states[n], e, m) then
              var d := states[n].workers[e.w];
              && d.phase.Failing? && row'.lastError.Some? && Shortens(row'.lastError.value, d.phase.error)
              && row' == row.(attemptCount := row.attemptCount + 1, lockedAt := None, lockedBy := None,
                              lastError := row'.lastError,
                              deadLetteredAt := if row.attemptCount + 1 >= cfg.maxAttempts then Some(d.now) else None,
                              availableAt := row'.availableAt)
              && (row.attemptCount + 1 >= cfg.maxAttempts ==> row'.availableAt == row.availableAt)
            else if Publishes(states[n], e, m) then
              row' == row.(publishedAt := Some(states[n].workers[e.w].now), lockedAt := None, lockedBy := None,
                           lastError := None,
                           deliveryResult := Some(cfg.machine.prefix + ":execution:" + cfg.machine.name
                                                  + ":supplier-action-"
                                                  + cfg.hex(row.aggregateId)))
            else row' == row
  {
    RowStepAt(cfg, states, events, n, m);
    ReachableInv(cfg, states, events, n);
    var e, s := events[n], states[n];
    assert RowOk(cfg.maxAttempts, s.db.messages[m]);
    if Publishes(s, e, m) {
      var d := s.workers[e.w];
      assert DispatchOk(cfg, s.db, s.executions, e.w, d);
      assert SnapshotOk(s.db.messages, e.w, d.now, d.todo[0]);
      ReferenceText(cfg.machine, cfg.hex(d.todo[0].aggregateId));
    }
  }
}
